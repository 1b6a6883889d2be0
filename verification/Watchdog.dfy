/** Replica deaths: noticed by the watchdog's heartbeat scan, by the thread that follows the replica's log, or
    imposed by a kill. The parties share the replica phases, the chunk queue and the outbox. */
module Watchdog {
  import opened Common
  import opened ChunkQueue
  import opened QueueRuns
  import opened CM = ChunkManager
  import Outbox

  datatype Phase = Launching | Provisioned | Running | Completed | Failed | Dead | Killed | SwappedOut | Unset

  predicate Terminal(p: Phase) {
    p == Phase.Completed || p == Phase.Failed || p == Dead || p == Killed || p == SwappedOut
  }

  datatype Fleet = Fleet(q: Queue, outbox: Outbox.Table, phases: map<ReplicaId, Phase>, dead: map<ReplicaId, Time>)

  function PhaseOf(phases: map<ReplicaId, Phase>, r: ReplicaId): Phase {
    if r in phases then phases[r] else Unset
  }

  /** Both detectors use this key, so the second to notice a death finds the row already there. */
  function FailureId(r: ReplicaId): Outbox.EventId {
    Outbox.Dedup(Outbox.ReplicaFailed, r)
  }

  function Announced(t: Outbox.Table, r: ReplicaId, payload: string, now: Time): Outbox.Table {
    Outbox.Insert(t, FailureId(r), Outbox.FreshRow("/job/replica-failed", payload, now))
  }

  // ------------------------------------------------------------------ watchdog

  /** A running replica of an active job that holds no chunk has finished, not died. */
  predicate Graceful(f: Fleet, r: ReplicaId, jobOver: bool)
    requires WellFormed(f.q)
  {
    PhaseOf(f.phases, r) == Running && !jobOver && OwnedChunks(f.q, {r}) == {}
  }

  predicate Orderly(cfg: Config, q: Queue, r: ReplicaId, back: seq<ChunkId>)
    requires WellFormed(q)
  {
    Enumerates(back, Requeued(cfg, q, OwnedChunks(q, {r})))
  }

  function HandleDead(cfg: Config, f: Fleet, r: ReplicaId, jobOver: bool, now: Time, payload: string, back: seq<ChunkId>): Fleet
    requires WellFormed(f.q)
  {
    if r in f.dead then f
    else if Graceful(f, r, jobOver) then
      f.(dead := f.dead[r := now], phases := f.phases[r := Phase.Completed])
    else
      Fleet(AfterReclaim(cfg, f.q, OwnedChunks(f.q, {r}), back), Announced(f.outbox, r, payload, now),
            f.phases[r := Dead], f.dead[r := now])
  }

  /** What the scan knows of one replica: its last heartbeat and since when it has been running. */
  datatype Pulse = Pulse(lastBeat: Option<Time>, runningSince: Option<Time>)

  predicate Overdue(p: Phase, isDead: bool, pulse: Pulse, now: Time, threshold: Time) {
    || (p == Phase.Failed && !isDead)
    || (p == Running &&
        (if pulse.lastBeat.Some? then now - pulse.lastBeat.value > threshold
         else pulse.runningSince.Some? && pulse.runningSince.value != 0.0 && now - pulse.runningSince.value > threshold))
  }

  predicate IsOverdue(f: Fleet, r: ReplicaId, pulse: Pulse, now: Time, threshold: Time) {
    Overdue(PhaseOf(f.phases, r), r in f.dead, pulse, now, threshold)
  }

  /** The scan declares the replica dead: it is overdue, not tracked yet, and holds a chunk or has failed. */
  predicate Strikes(f: Fleet, r: ReplicaId, pulse: Pulse, now: Time, threshold: Time)
    requires WellFormed(f.q)
  {
    IsOverdue(f, r, pulse, now, threshold) && r !in f.dead && !Graceful(f, r, false)
  }

  function Struck(f: Fleet, rs: seq<ReplicaId>, pulses: map<ReplicaId, Pulse>, now: Time, threshold: Time): set<ReplicaId>
    requires WellFormed(f.q) && forall r | r in rs :: r in pulses
  {
    set r | r in rs && Strikes(f, r, pulses[r], now, threshold)
  }

  /** The key of one of these replicas' failure. */
  predicate FailureOf(id: Outbox.EventId, struck: set<ReplicaId>) {
    id.Dedup? && id.topic == Outbox.ReplicaFailed && id.subject in struck
  }

  /** From `t` to `t'` exactly these replicas' deaths were announced: the rows there were stay as they were, and each
      of the others has a fresh one. */
  ghost predicate AnnouncedAll(t: Outbox.Table, t': Outbox.Table, struck: set<ReplicaId>, payload: string, now: Time) {
    && (forall id :: id in t' <==> id in t || FailureOf(id, struck))
    && (forall id | id in t' :: t'[id] == if id in t then t[id] else Outbox.FreshRow("/job/replica-failed", payload, now))
  }

  lemma AnnouncedOneMore(t: Outbox.Table, t': Outbox.Table, struck: set<ReplicaId>, r: ReplicaId, payload: string, now: Time)
    requires AnnouncedAll(t, t', struck, payload, now)
    ensures AnnouncedAll(t, Announced(t', r, payload, now), struck + {r}, payload, now)
  {
  }

  /** One step is the handling of `r`, with its chunks re-queued in the order `back`. */
  ghost predicate Handling(cfg: Config, f: Fleet, f': Fleet, r: ReplicaId, now: Time, payload: string, back: seq<ChunkId>)
    requires WellFormed(f.q)
  {
    && (r !in f.dead && !Graceful(f, r, false) ==> Orderly(cfg, f.q, r, back))
    && f' == HandleDead(cfg, f, r, false, now, payload, back)
  }

  /** Where a scan that began with `f0` and has looked at `seen` has got to. */
  ghost predicate Scanned(f0: Fleet, f: Fleet, seen: seq<ReplicaId>, pulses: map<ReplicaId, Pulse>, now: Time, threshold: Time)
    requires forall r | r in seen :: r in pulses
  {
    && WellFormed(f0.q) && WellFormed(f.q)
    && (forall r | r in seen && IsOverdue(f0, r, pulses[r], now, threshold) ::
          r in f.dead && (r !in f0.dead ==> OwnedChunks(f.q, {r}) == {}))
    && (forall r | r !in seen || !IsOverdue(f0, r, pulses[r], now, threshold) :: Untouched(f0, f, r))
  }

  /** What the scan does for one replica. */
  ghost predicate Looked(f: Fleet, f': Fleet, r: ReplicaId, pulse: Pulse, now: Time, threshold: Time, payload: string) {
    && WellFormed(f.q) && WellFormed(f'.q)
    && (forall other | other != r :: Untouched(f, f', other))
    && (IsOverdue(f, r, pulse, now, threshold) ==> r in f'.dead && (r !in f.dead ==> OwnedChunks(f'.q, {r}) == {}))
    && (!IsOverdue(f, r, pulse, now, threshold) ==> f' == f)
    && f'.outbox == (if Strikes(f, r, pulse, now, threshold) then Announced(f.outbox, r, payload, now) else f.outbox)
    && (if Strikes(f, r, pulse, now, threshold) then AllDone(f.q) ==> AllDone(f'.q) else f'.q == f.q)
  }

  lemma StruckOneMore(f0: Fleet, f: Fleet, seen: seq<ReplicaId>, r: ReplicaId, pulses: map<ReplicaId, Pulse>, now: Time, threshold: Time)
    requires r in pulses && forall x | x in seen :: x in pulses
    requires WellFormed(f0.q) && WellFormed(f.q) && Untouched(f0, f, r)
    ensures Strikes(f, r, pulses[r], now, threshold) <==> Strikes(f0, r, pulses[r], now, threshold)
    ensures Struck(f0, seen + [r], pulses, now, threshold) ==
            Struck(f0, seen, pulses, now, threshold) + if Strikes(f, r, pulses[r], now, threshold) then {r} else {}
  {
  }

  lemma ScanStep(f0: Fleet, f: Fleet, f': Fleet, seen: seq<ReplicaId>, r: ReplicaId, pulses: map<ReplicaId, Pulse>,
                 now: Time, threshold: Time, payload: string)
    requires r !in seen && r in pulses && forall x | x in seen :: x in pulses
    requires Scanned(f0, f, seen, pulses, now, threshold)
    requires Looked(f, f', r, pulses[r], now, threshold, payload)
    ensures Scanned(f0, f', seen + [r], pulses, now, threshold)
  {
    assert Untouched(f0, f, r);
    forall other | other in seen + [r] && IsOverdue(f0, other, pulses[other], now, threshold)
      ensures other in f'.dead && (other !in f0.dead ==> OwnedChunks(f'.q, {other}) == {})
    {
      if other != r {
        assert other in seen && Untouched(f, f', other);
      }
    }
    forall other | other !in seen + [r] || !IsOverdue(f0, other, pulses[other], now, threshold)
      ensures Untouched(f0, f', other)
    {
      assert Untouched(f0, f, other);
      assert other != r ==> Untouched(f, f', other);
    }
  }

  /** A scan that has looked at `seen`. The overdue replicas are tracked as dead, and those handled now own nothing; the
      others keep their phase, their tracking and their chunks. The outbox gained one row for each replica declared
      dead whose key was not there, and no other; assembly was called for if and only if some replica was declared
      dead and the job is now done. */
  ghost predicate ScanAt(f0: Fleet, f: Fleet, seen: seq<ReplicaId>, pulses: map<ReplicaId, Pulse>, now: Time,
                         threshold: Time, payload: string, assemble: bool)
    requires forall r | r in seen :: r in pulses
  {
    && Scanned(f0, f, seen, pulses, now, threshold)
    && AnnouncedAll(f0.outbox, f.outbox, Struck(f0, seen, pulses, now, threshold), payload, now)
    && (assemble <==> Struck(f0, seen, pulses, now, threshold) != {} && AllDone(f.q))
  }

  lemma ScanStart(f0: Fleet, pulses: map<ReplicaId, Pulse>, now: Time, threshold: Time, payload: string)
    requires WellFormed(f0.q)
    ensures ScanAt(f0, f0, [], pulses, now, threshold, payload, false)
  {
  }

  lemma ScanNext(f0: Fleet, f: Fleet, f': Fleet, rs: seq<ReplicaId>, i: nat, pulses: map<ReplicaId, Pulse>, now: Time,
                 threshold: Time, payload: string, assemble: bool, called: bool)
    requires i < |rs| && NoDup(rs) && forall x | x in rs :: x in pulses
    requires ScanAt(f0, f, rs[..i], pulses, now, threshold, payload, assemble)
    requires Looked(f, f', rs[i], pulses[rs[i]], now, threshold, payload)
    requires called <==> Strikes(f, rs[i], pulses[rs[i]], now, threshold) && AllDone(f'.q)
    ensures ScanAt(f0, f', rs[..i + 1], pulses, now, threshold, payload, assemble || called)
  {
    var seen, r := rs[..i], rs[i];
    assert rs[..i + 1] == seen + [r] && r !in seen;
    ScanStep(f0, f, f', seen, r, pulses, now, threshold, payload);
    assert Untouched(f0, f, r);
    StruckOneMore(f0, f, seen, r, pulses, now, threshold);
    AnnouncedOneMore(f0.outbox, f.outbox, Struck(f0, seen, pulses, now, threshold), r, payload, now);
  }

  // ------------------------------------------------------------- monitor thread

  /** How following a replica's log ended: normally, with the job's `all_done` if progress could be read;
      or with an exception, perhaps a cancellation. */
  datatype Exit = Clean(allDone: Option<bool>) | LogError(cancelled: bool, jobDone: bool)

  /** The exit paths before the final block: the new phase, and whether a failure was announced. */
  function ExitPath(p: Phase, exit: Exit): (Phase, bool) {
    match exit
    case Clean(allDone) => if allDone == Some(false) then (Phase.Failed, true) else (Phase.Completed, false)
    case LogError(cancelled, jobDone) =>
      if Terminal(p) || cancelled || jobDone then (p, false) else (Phase.Failed, true)
  }

  predicate MonitorAnnounces(p: Phase, exit: Exit) {
    var (p', announced) := ExitPath(p, exit);
    announced || !Terminal(p')
  }

  function MonitorExit(f: Fleet, r: ReplicaId, exit: Exit, now: Time, payload: string): Fleet {
    var p := PhaseOf(f.phases, r);
    f.(phases := if ExitPath(p, exit).0 == p then f.phases else f.phases[r := ExitPath(p, exit).0],
       outbox := if MonitorAnnounces(p, exit) then Announced(f.outbox, r, payload, now) else f.outbox)
  }

  // ------------------------------------------------------------------- the kill

  function KillTargets(phases: map<ReplicaId, Phase>, rs: seq<ReplicaId>): set<ReplicaId> {
    set r | r in rs && !Terminal(PhaseOf(phases, r))
  }

  function DoKill(cfg: Config, f: Fleet, rs: seq<ReplicaId>, phase: Phase, back: seq<ChunkId>): Fleet
    requires WellFormed(f.q)
  {
    var targets := KillTargets(f.phases, rs);
    f.(q := AfterReclaim(cfg, f.q, OwnedChunks(f.q, targets), back),
       phases := f.phases + map r | r in targets :: phase)
  }

  // ---------------------------------------------------------- after the handling

  /** The chunk was taken back from its owner once: live again or failed, one retry more. */
  predicate TakenBackOnce(cfg: Config, q: Queue, q': Queue, c: ChunkId) {
    && c in q.chunks && c in q'.chunks && c !in q'.inflight
    && q'.chunks[c].retryCount == q.chunks[c].retryCount + 1
    && (if q.chunks[c].retryCount + 1 < cfg.maxRetries
        then c in q'.pending && q'.chunks[c].status == Status.Pending
        else c in q'.failed && q'.chunks[c].status == Status.Failed)
  }

  /** Taking back everything some replicas own: they own nothing any more, each of their chunks has been taken back
      once, no other chunk is touched, and doing it again changes nothing. */
  lemma ForceReclaimSettles(cfg: Config, q: Queue, rs: set<ReplicaId>, back: seq<ChunkId>)
    requires WellFormed(q) && Enumerates(back, Requeued(cfg, q, OwnedChunks(q, rs)))
    ensures var q' := AfterReclaim(cfg, q, OwnedChunks(q, rs), back);
            && WellFormed(q') && OwnedChunks(q', rs) == {}
            && (forall c | c in OwnedChunks(q, rs) :: TakenBackOnce(cfg, q, q', c))
            && (forall c | c in q.chunks && c !in OwnedChunks(q, rs) :: c in q'.chunks && q'.chunks[c] == q.chunks[c])
            && AfterReclaim(cfg, q', OwnedChunks(q', rs), []) == q'
  {
    var q' := AfterReclaim(cfg, q, OwnedChunks(q, rs), back);
    assert OwnedChunks(q', rs) == {};
    NothingSelected(cfg, q');
  }

  /** After the watchdog has handled a replica it owns no inflight chunk; if it was declared dead, every chunk it
      held has been taken back once and its failure is in the outbox. */
  lemma HandledOwnsNothing(cfg: Config, f: Fleet, r: ReplicaId, jobOver: bool, now: Time, payload: string, back: seq<ChunkId>)
    requires WellFormed(f.q) && Orderly(cfg, f.q, r, back) && r !in f.dead
    ensures var f' := HandleDead(cfg, f, r, jobOver, now, payload, back);
            && WellFormed(f'.q) && OwnedChunks(f'.q, {r}) == {}
            && r in f'.dead && Terminal(PhaseOf(f'.phases, r))
            && (forall c | c in OwnedChunks(f.q, {r}) :: TakenBackOnce(cfg, f.q, f'.q, c))
            && (!Graceful(f, r, jobOver) <==> PhaseOf(f'.phases, r) == Dead)
            && (!Graceful(f, r, jobOver) ==> FailureId(r) in f'.outbox)
  {
    ForceReclaimSettles(cfg, f.q, {r}, back);
  }

  /** Handling one replica leaves every other one as it was. */
  lemma HandleOthers(cfg: Config, f: Fleet, r: ReplicaId, other: ReplicaId, jobOver: bool, now: Time, payload: string,
                     back: seq<ChunkId>)
    requires WellFormed(f.q) && other != r
    requires r !in f.dead && !Graceful(f, r, jobOver) ==> Orderly(cfg, f.q, r, back)
    ensures var f' := HandleDead(cfg, f, r, jobOver, now, payload, back);
            WellFormed(f'.q) && Untouched(f, f', other)
  {
  }

  // --------------------------------------------------- any number of notices

  /** The phases in which the scan may hand a replica to the handler. */
  predicate Watched(p: Phase) {
    p == Running || p == Phase.Failed
  }

  /** `ByWatchdog` is a scan that finds the replica's heartbeat overdue. */
  datatype Notice =
    | ByWatchdog(jobOver: bool, now: Time, payload: string, back: seq<ChunkId>)
    | ByMonitor(exit: Exit, now: Time, payload: string)
    | ByKill(phase: Phase, back: seq<ChunkId>)
    | Recovered

  predicate Sensible(cfg: Config, f: Fleet, r: ReplicaId, n: Notice)
    requires WellFormed(f.q)
  {
    match n
    case ByWatchdog(_, _, _, back) => Orderly(cfg, f.q, r, back)
    case ByKill(_, back) => Enumerates(back, Requeued(cfg, f.q, OwnedChunks(f.q, KillTargets(f.phases, [r]))))
    case _ => true
  }

  /** The scan skips a replica in any other phase. `Recovered` is a heartbeat after death: the watchdog forgets it and
      the replica counts as running again. */
  function Observe(cfg: Config, f: Fleet, r: ReplicaId, n: Notice): Fleet
    requires WellFormed(f.q)
  {
    match n
    case ByWatchdog(jobOver, now, payload, back) =>
      if Watched(PhaseOf(f.phases, r)) then HandleDead(cfg, f, r, jobOver, now, payload, back) else f
    case ByMonitor(exit, now, payload) => MonitorExit(f, r, exit, now, payload)
    case ByKill(phase, back) => DoKill(cfg, f, [r], phase, back)
    case Recovered =>
      f.(dead := f.dead - {r},
         phases := if PhaseOf(f.phases, r) in {Launching, Provisioned, Dead} then f.phases[r := Running] else f.phases)
  }

  predicate Course(cfg: Config, f: Fleet, r: ReplicaId, ns: seq<Notice>)
    decreases |ns|
  {
    WellFormed(f.q) &&
    (ns == [] || (Sensible(cfg, f, r, ns[0]) && Course(cfg, Observe(cfg, f, r, ns[0]), r, ns[1..])))
  }

  function Final(cfg: Config, f: Fleet, r: ReplicaId, ns: seq<Notice>): Fleet
    requires Course(cfg, f, r, ns)
    decreases |ns|
  {
    if ns == [] then f else Final(cfg, Observe(cfg, f, r, ns[0]), r, ns[1..])
  }

  /** What some notices of one death may have done to the queue: nothing, or one force-reclaim of the replica. */
  ghost predicate ReclaimedAtMostOnce(cfg: Config, q: Queue, q': Queue, r: ReplicaId)
    requires WellFormed(q)
  {
    || q' == q
    || exists back :: Orderly(cfg, q, r, back) && q' == AfterReclaim(cfg, q, OwnedChunks(q, {r}), back)
  }

  /** What they may have done to the outbox: nothing, or one row under the replica's key. */
  ghost predicate AnnouncedAtMostOnce(t: Outbox.Table, t': Outbox.Table, r: ReplicaId) {
    t' == t || (FailureId(r) !in t && FailureId(r) in t' && t' == t[FailureId(r) := t'[FailureId(r)]])
  }

  lemma ObserveOnce(cfg: Config, f: Fleet, r: ReplicaId, n: Notice)
    requires WellFormed(f.q) && Sensible(cfg, f, r, n)
    ensures ReclaimedAtMostOnce(cfg, f.q, Observe(cfg, f, r, n).q, r)
    ensures AnnouncedAtMostOnce(f.outbox, Observe(cfg, f, r, n).outbox, r)
  {
    if n.ByKill? {
      if Terminal(PhaseOf(f.phases, r)) {
        assert KillTargets(f.phases, [r]) == {};
        assert OwnedChunks(f.q, {}) == {};
        assert Requeued(cfg, f.q, {}) == {};
        EnumeratesNothing(n.back);
        NothingSelected(cfg, f.q);
      } else {
        assert KillTargets(f.phases, [r]) == {r};
        assert Orderly(cfg, f.q, r, n.back);
      }
    } else if n.ByWatchdog? {
      assert Orderly(cfg, f.q, r, n.back);
    }
  }

  lemma SecondReclaimNothing(cfg: Config, q: Queue, q1: Queue, q2: Queue, r: ReplicaId)
    requires WellFormed(q) && WellFormed(q1)
    requires ReclaimedAtMostOnce(cfg, q, q1, r) && ReclaimedAtMostOnce(cfg, q1, q2, r)
    ensures ReclaimedAtMostOnce(cfg, q, q2, r)
  {
    if q1 != q {
      var back :| Orderly(cfg, q, r, back) && q1 == AfterReclaim(cfg, q, OwnedChunks(q, {r}), back);
      ForceReclaimSettles(cfg, q, {r}, back);
      if q2 != q1 {
        var b: seq<ChunkId> :| Orderly(cfg, q1, r, b) && q2 == AfterReclaim(cfg, q1, OwnedChunks(q1, {r}), b);
        assert Requeued(cfg, q1, {}) == {};
        EnumeratesNothing(b);
      }
    }
  }

  /** One death, noticed any number of times by the watchdog, the monitor thread and kills, in any order, with
      heartbeats in between: the queue has at most one force-reclaim of the replica behind it, and the outbox at most
      one new row, the one the first to announce it wrote. */
  lemma {:induction false} NoticedOnce(cfg: Config, f: Fleet, r: ReplicaId, ns: seq<Notice>)
    requires Course(cfg, f, r, ns)
    ensures ReclaimedAtMostOnce(cfg, f.q, Final(cfg, f, r, ns).q, r)
    ensures AnnouncedAtMostOnce(f.outbox, Final(cfg, f, r, ns).outbox, r)
    decreases |ns|
  {
    if ns != [] {
      var f1 := Observe(cfg, f, r, ns[0]);
      ObserveOnce(cfg, f, r, ns[0]);
      NoticedOnce(cfg, f1, r, ns[1..]);
      SecondReclaimNothing(cfg, f.q, f1.q, Final(cfg, f, r, ns).q, r);
    }
  }

  /** Whether a notice announces a failure: the watchdog if it hands the replica to the handler and does not track it
      already or take it to have finished, the monitor as its exit path says, a kill never. */
  predicate Announces(f: Fleet, r: ReplicaId, n: Notice)
    requires WellFormed(f.q)
  {
    match n
    case ByWatchdog(jobOver, _, _, _) => Watched(PhaseOf(f.phases, r)) && r !in f.dead && !Graceful(f, r, jobOver)
    case ByMonitor(exit, _, _) => MonitorAnnounces(PhaseOf(f.phases, r), exit)
    case ByKill(_, _) => false
    case Recovered => false
  }

  predicate SomeoneAnnounces(cfg: Config, f: Fleet, r: ReplicaId, ns: seq<Notice>)
    requires Course(cfg, f, r, ns)
    decreases |ns|
  {
    ns != [] && (Announces(f, r, ns[0]) || SomeoneAnnounces(cfg, Observe(cfg, f, r, ns[0]), r, ns[1..]))
  }

  /** The failure is in the outbox in the end if and only if it was there already or some notice announced it; with
      `NoticedOnce` that is exactly one row. */
  lemma {:induction false} AnnouncedExactly(cfg: Config, f: Fleet, r: ReplicaId, ns: seq<Notice>)
    requires Course(cfg, f, r, ns)
    ensures FailureId(r) in Final(cfg, f, r, ns).outbox
            <==> FailureId(r) in f.outbox || SomeoneAnnounces(cfg, f, r, ns)
    decreases |ns|
  {
    if ns != [] {
      AnnouncedExactly(cfg, Observe(cfg, f, r, ns[0]), r, ns[1..]);
    }
  }

  /** A running replica that the watchdog does not track yet and nobody has announced. */
  predicate Alive(f: Fleet, r: ReplicaId) {
    PhaseOf(f.phases, r) == Running && r !in f.dead && FailureId(r) !in f.outbox
  }

  /** The monitor takes this exit for a finished replica: a clean end of the log with the job done or its progress
      unreadable. */
  predicate LooksFinished(exit: Exit) {
    exit.Clean? && exit.allDone != Some(false)
  }

  lemma TwoNotices(cfg: Config, f: Fleet, r: ReplicaId, ns: seq<Notice>)
    requires |ns| == 2 && Course(cfg, f, r, ns)
    ensures WellFormed(Observe(cfg, f, r, ns[0]).q)
    ensures SomeoneAnnounces(cfg, f, r, ns)
            <==> Announces(f, r, ns[0]) || Announces(Observe(cfg, f, r, ns[0]), r, ns[1])
  {
    var f1 := Observe(cfg, f, r, ns[0]);
    assert ns[1..][0] == ns[1] && ns[1..][1..] == [];
    assert SomeoneAnnounces(cfg, f1, r, ns[1..]) <==> Announces(f1, r, ns[1]);
  }

  /** Exactly one row was written, or none. */
  predicate OneRow(t: Outbox.Table, t': Outbox.Table, r: ReplicaId) {
    FailureId(r) !in t && FailureId(r) in t' && t' == t[FailureId(r) := t'[FailureId(r)]]
  }

  lemma RowIffAnnounced(cfg: Config, f: Fleet, r: ReplicaId, ns: seq<Notice>)
    requires Course(cfg, f, r, ns) && FailureId(r) !in f.outbox
    ensures var t := Final(cfg, f, r, ns).outbox;
            if SomeoneAnnounces(cfg, f, r, ns) then OneRow(f.outbox, t, r) else t == f.outbox
  {
    NoticedOnce(cfg, f, r, ns);
    AnnouncedExactly(cfg, f, r, ns);
  }

  /** A running replica dies, the watchdog notices, then the monitor thread exits, in any way. Exactly one row is
      written if the replica held a chunk, or its job was over, or the log ended cleanly with chunks left; otherwise
      none: a replica that holds nothing looks finished to the watchdog, and the monitor finds a terminal phase. */
  lemma WatchdogThenMonitor(cfg: Config, f: Fleet, r: ReplicaId, w: Notice, m: Notice)
    requires w.ByWatchdog? && m.ByMonitor? && Course(cfg, f, r, [w, m]) && Alive(f, r)
    ensures var t := Final(cfg, f, r, [w, m]).outbox;
            if OwnedChunks(f.q, {r}) != {} || w.jobOver || m.exit == Clean(Some(false))
            then OneRow(f.outbox, t, r) else t == f.outbox
  {
    RowIffAnnounced(cfg, f, r, [w, m]);
    TwoNotices(cfg, f, r, [w, m]);
    var f1 := Observe(cfg, f, r, w);
    assert Announces(f, r, w) <==> OwnedChunks(f.q, {r}) != {} || w.jobOver;
    assert Terminal(PhaseOf(f1.phases, r));
    assert Announces(f1, r, m) <==> m.exit == Clean(Some(false));
  }

  /** The other way round, exactly one row is written unless the log ended in a way that looks finished, and then
      none, even if the replica held chunks: the scan skips a completed replica. */
  lemma MonitorThenWatchdog(cfg: Config, f: Fleet, r: ReplicaId, w: Notice, m: Notice)
    requires w.ByWatchdog? && m.ByMonitor? && Course(cfg, f, r, [m, w]) && Alive(f, r)
    ensures var t := Final(cfg, f, r, [m, w]).outbox;
            if LooksFinished(m.exit) then t == f.outbox else OneRow(f.outbox, t, r)
  {
    RowIffAnnounced(cfg, f, r, [m, w]);
    TwoNotices(cfg, f, r, [m, w]);
    var f1 := Observe(cfg, f, r, m);
    assert Announces(f, r, m) <==> !LooksFinished(m.exit);
    if LooksFinished(m.exit) {
      assert PhaseOf(f1.phases, r) == Phase.Completed;
    }
  }

  // Replica 7 runs, holds nothing or chunk 0, and dies.
  const IDLE_FLEET := Fleet(Create([]), map[], map[7 := Running], map[])
  const BUSY_FLEET := Fleet(BusyQueue(), map[], map[7 := Running], map[])

  function BusyQueue(): Queue {
    Queue([0], [], {0}, {}, {}, map[0 := Chunk(Status.Inflight, 7, 1.0, 0.0, 11.0, 0)])
  }

  lemma TwoInCourse(cfg: Config, f: Fleet, r: ReplicaId, first: Notice, second: Notice)
    requires WellFormed(f.q) && Sensible(cfg, f, r, first)
    requires WellFormed(Observe(cfg, f, r, first).q) && Sensible(cfg, Observe(cfg, f, r, first), r, second)
    ensures Course(cfg, f, r, [first, second])
  {
    var ns := [first, second];
    assert ns[1..][0] == second && ns[1..][1..] == [];
    assert Course(cfg, Observe(cfg, f, r, first), r, ns[1..]);
  }

  /** Nobody announces the death of the idle replica if the watchdog comes first; the monitor alone would. */
  lemma IdleDeathSwallowed(cfg: Config)
    ensures var w, m := ByWatchdog(false, 100.0, "", []), ByMonitor(LogError(false, false), 101.0, "");
            && Course(cfg, IDLE_FLEET, 7, [w, m]) && Final(cfg, IDLE_FLEET, 7, [w, m]).outbox == map[]
            && Course(cfg, IDLE_FLEET, 7, [m, w]) && FailureId(7) in Final(cfg, IDLE_FLEET, 7, [m, w]).outbox
  {
    var w, m := ByWatchdog(false, 100.0, "", []), ByMonitor(LogError(false, false), 101.0, "");
    assert OwnedChunks(IDLE_FLEET.q, {7}) == {};
    NothingSelected(cfg, IDLE_FLEET.q);
    TwoInCourse(cfg, IDLE_FLEET, 7, w, m);
    TwoInCourse(cfg, IDLE_FLEET, 7, m, w);
    WatchdogThenMonitor(cfg, IDLE_FLEET, 7, w, m);
    MonitorThenWatchdog(cfg, IDLE_FLEET, 7, w, m);
  }

  /** Nor that of the busy one if the monitor comes first and cannot read the job's progress: its chunk is then left
      to its lease, whatever the watchdog's scans find. */
  lemma BusyDeathSwallowed(cfg: Config)
    requires cfg.maxRetries > 1
    ensures var w, m := ByWatchdog(false, 101.0, "", [0]), ByMonitor(Clean(None), 100.0, "");
            && Course(cfg, BUSY_FLEET, 7, [m, w])
            && var f := Final(cfg, BUSY_FLEET, 7, [m, w]);
               WellFormed(f.q) && f.outbox == map[] && f.phases == map[7 := Phase.Completed] && OwnedChunks(f.q, {7}) == {0}
  {
    var w, m := ByWatchdog(false, 101.0, "", [0]), ByMonitor(Clean(None), 100.0, "");
    var f1 := Observe(cfg, BUSY_FLEET, 7, m);
    assert OwnedChunks(BusyQueue(), {7}) == {0};
    assert Requeued(cfg, BusyQueue(), {0}) == {0};
    TwoInCourse(cfg, BUSY_FLEET, 7, m, w);
    MonitorThenWatchdog(cfg, BUSY_FLEET, 7, w, m);
    assert Observe(cfg, f1, 7, w) == f1;
    FinalOfTwo(cfg, BUSY_FLEET, 7, m, w);
  }

  lemma FinalOfTwo(cfg: Config, f: Fleet, r: ReplicaId, first: Notice, second: Notice)
    requires Course(cfg, f, r, [first, second])
    ensures Final(cfg, f, r, [first, second]) == Observe(cfg, Observe(cfg, f, r, first), r, second)
  {
    var ns := [first, second];
    assert ns[1..][0] == second && ns[1..][1..] == [];
    var f1 := Observe(cfg, f, r, first);
    assert Final(cfg, f1, r, ns[1..]) == Observe(cfg, f1, r, second);
  }

  // ------------------------------------------------------ what happens afterwards

  lemma OwnsNothingNext(cfg: Config, q: Queue, e: Event, r: ReplicaId)
    requires WellFormed(q) && Enabled(cfg, q, e) && OwnedChunks(q, {r}) == {}
    requires e.Pull? ==> e.replica != r
    ensures WellFormed(Next(cfg, q, e)) && OwnedChunks(Next(cfg, q, e), {r}) == {}
  {
    NextWellFormed(cfg, q, e);
    forall c | c in Next(cfg, q, e).inflight
      ensures Next(cfg, q, e).chunks[c].owner != r
    {
      assert c in q.inflight ==> c !in OwnedChunks(q, {r});
    }
  }

  /** A replica that owns nothing, because it has been handled or killed, owns nothing after any run in which it does
      not pull, whatever the others do. */
  lemma {:induction false} OwnsNothingRun(cfg: Config, q: Queue, es: seq<Event>, r: ReplicaId)
    requires WellFormed(q) && Legal(cfg, q, es) && OwnedChunks(q, {r}) == {}
    requires forall e | e in es && e.Pull? :: e.replica != r
    ensures WellFormed(After(cfg, q, es)) && OwnedChunks(After(cfg, q, es), {r}) == {}
    decreases |es|
  {
    if es != [] {
      OwnsNothingNext(cfg, q, es[0], r);
      OwnsNothingRun(cfg, Next(cfg, q, es[0]), es[1..], r);
    }
  }

  /** A replica as it was: same phase, same tracking, same chunks. */
  predicate Untouched(f: Fleet, f': Fleet, r: ReplicaId)
    requires WellFormed(f.q) && WellFormed(f'.q)
  {
    && PhaseOf(f'.phases, r) == PhaseOf(f.phases, r)
    && (r in f'.dead <==> r in f.dead)
    && OwnedChunks(f'.q, {r}) == OwnedChunks(f.q, {r})
  }

  // ------------------------------------------------- the scan, phase by phase

  /** Dead and tracked, its failure in the outbox under its key, first to be sent now unless the key was there, and none
      of its chunks inflight. */
  ghost predicate DeclaredDead(f: Fleet, f': Fleet, r: ReplicaId, now: Time, payload: string) {
    && f'.phases == f.phases[r := Dead] && f'.dead == f.dead[r := now]
    && (var key := Outbox.Dedup(Outbox.ReplicaFailed, r);
        f'.outbox == if key in f.outbox then f.outbox
                     else f.outbox[key := Outbox.Row("/job/replica-failed", payload, now, now, 0, None, None)])
    && (forall c | c in f'.q.inflight :: c in f'.q.chunks && f'.q.chunks[c].owner != r)
    && (forall c | c in f.q.inflight && c in f.q.chunks && f.q.chunks[c].owner != r :: c in f'.q.inflight)
  }

  /** What a look at one replica comes to. Untracked and failed, or running, silent for longer than the threshold and
      holding a chunk, it is declared dead. Untracked, running and silent, but holding nothing, it is completed and
      tracked. In every other case, and so for a heartbeat within the threshold, nothing changes. */
  ghost predicate LookMeans(f: Fleet, f': Fleet, r: ReplicaId, pulse: Pulse, now: Time, threshold: Time, payload: string) {
    var p := if r in f.phases then f.phases[r] else Unset;
    var silent := if pulse.lastBeat.Some? then now > pulse.lastBeat.value + threshold
                  else pulse.runningSince.Some? && pulse.runningSince.value != 0.0 && now > pulse.runningSince.value + threshold;
    var holds := exists c :: c in f.q.inflight && c in f.q.chunks && f.q.chunks[c].owner == r;
    if r !in f.dead && (p == Phase.Failed || (p == Running && silent && holds)) then DeclaredDead(f, f', r, now, payload)
    else if r !in f.dead && p == Running && silent then
      f' == f.(phases := f.phases[r := Phase.Completed], dead := f.dead[r := now])
    else f' == f
  }

  lemma HandlingMeans(cfg: Config, f: Fleet, f': Fleet, r: ReplicaId, now: Time, payload: string, back: seq<ChunkId>)
    requires WellFormed(f.q) && Handling(cfg, f, f', r, now, payload, back)
    requires r !in f.dead && !Graceful(f, r, false)
    ensures DeclaredDead(f, f', r, now, payload)
  {
    ForceReclaimSettles(cfg, f.q, {r}, back);
    forall c | c in f'.q.inflight
      ensures c in f'.q.chunks && f'.q.chunks[c].owner != r
    {
      assert c !in OwnedChunks(f'.q, {r});
    }
  }

  lemma HoldsNothing(q: Queue, r: ReplicaId)
    requires WellFormed(q)
    ensures OwnedChunks(q, {r}) == {} <==> !exists c :: c in q.inflight && c in q.chunks && q.chunks[c].owner == r
  {
    if c :| c in q.inflight && c in q.chunks && q.chunks[c].owner == r {
      assert c in OwnedChunks(q, {r});
    }
  }

  lemma LookIsMeant(cfg: Config, f: Fleet, f': Fleet, r: ReplicaId, pulse: Pulse, now: Time, threshold: Time, payload: string)
    requires WellFormed(f.q)
    requires if IsOverdue(f, r, pulse, now, threshold) then exists back :: Handling(cfg, f, f', r, now, payload, back)
             else f' == f
    ensures LookMeans(f, f', r, pulse, now, threshold, payload)
  {
    HoldsNothing(f.q, r);
    if IsOverdue(f, r, pulse, now, threshold) {
      var back :| Handling(cfg, f, f', r, now, payload, back);
      if r !in f.dead && !Graceful(f, r, false) {
        HandlingMeans(cfg, f, f', r, now, payload, back);
      }
    }
  }

  // ------------------------------------------------------------------ the code

  class ClusterManager {
    var phases: map<ReplicaId, Phase>

    constructor ()
      ensures phases == map[]
    {
      phases := map[];
    }

    method SetPhase(r: ReplicaId, p: Phase)
      modifies this
      ensures phases == old(phases)[r := p]
    {
      phases := phases[r := p];
    }
  }

  class ReplicaWatchdog {
    const chunks: CM.ChunkManager
    const cluster: ClusterManager
    const outbox: Outbox.OutboxDB
    const threshold: Time
    var dead: map<ReplicaId, Time>

    constructor (chunks: CM.ChunkManager, cluster: ClusterManager, outbox: Outbox.OutboxDB, threshold: Time)
      ensures this.chunks == chunks && this.cluster == cluster && this.outbox == outbox
      ensures this.threshold == threshold && dead == map[]
    {
      this.chunks, this.cluster, this.outbox, this.threshold := chunks, cluster, outbox, threshold;
      dead := map[];
    }

    ghost function State(): Fleet
      reads this, chunks, cluster, outbox
    {
      Fleet(chunks.State(), outbox.rows, cluster.phases, dead)
    }

    method ClearDead(r: ReplicaId)
      modifies this
      ensures dead == old(dead) - {r}
    {
      dead := dead - {r};
    }

    /** Metrics from a replica: one thought dead, or not yet running, counts as running again, and its tracking ends. */
    method Heartbeat(r: ReplicaId)
      modifies this, cluster
      ensures chunks.Valid() ==> State() == Observe(chunks.cfg, old(State()), r, Recovered)
      ensures dead == old(dead) - {r}
      ensures cluster.phases == if r in old(cluster.phases) && old(cluster.phases)[r] in {Launching, Provisioned, Dead}
                                then old(cluster.phases)[r := Running] else old(cluster.phases)
    {
      var p := PhaseOf(cluster.phases, r);
      if p == Launching || p == Provisioned || p == Dead {
        cluster.SetPhase(r, Running);
      }
      ClearDead(r);
    }

    method IsGraceful(r: ReplicaId, jobOver: bool) returns (graceful: bool)
      requires chunks.Valid()
      ensures graceful == Graceful(State(), r, jobOver)
    {
      if PhaseOf(cluster.phases, r) != Running || jobOver {
        return false;
      }
      var inflight := chunks.ReplicaInflightCount(r);
      return inflight == 0;
    }

    /** `assemble` is whether the handling calls back to start assembly: only for a death that left the job done. */
    method HandleDeadReplica(r: ReplicaId, jobOver: bool, now: Time, payload: string)
      returns (assemble: bool, ghost back: seq<ChunkId>)
      requires chunks.Valid()
      modifies this, chunks, cluster, outbox
      ensures chunks.Valid()
      ensures r !in old(dead) && !Graceful(old(State()), r, jobOver) ==> Orderly(chunks.cfg, old(State()).q, r, back)
      ensures State() == HandleDead(chunks.cfg, old(State()), r, jobOver, now, payload, back)
      ensures assemble == (r !in old(dead) && !Graceful(old(State()), r, jobOver) && AllDone(State().q))
    {
      assemble, back := false, [];
      if r in dead {
        return;
      }
      var graceful := IsGraceful(r, jobOver);
      dead := dead[r := now];
      if graceful {
        cluster.SetPhase(r, Phase.Completed);
        return;
      }
      cluster.SetPhase(r, Dead);
      var id := outbox.Enqueue("/job/replica-failed", payload, Some(FailureId(r)), Outbox.Random(0), now);
      var reclaimed, exhausted;
      reclaimed, exhausted, back := chunks.ForceReclaimOwned({r}, now);
      var progress := chunks.GetProgress();
      assemble := progress.allDone;
    }

    /** One scan of an active job's replicas: `ScanAt` says how it changes the replicas, the outbox and the call for
        assembly. */
    method CheckJob(rs: seq<ReplicaId>, pulses: map<ReplicaId, Pulse>, now: Time, payload: string) returns (assemble: bool)
      requires chunks.Valid() && NoDup(rs)
      requires forall r | r in rs :: r in pulses
      modifies this, chunks, cluster, outbox
      ensures chunks.Valid()
      ensures ScanAt(old(State()), State(), rs, pulses, now, threshold, payload, assemble)
    {
      ghost var f0 := State();
      var i := 0;
      assemble := false;
      ScanStart(f0, pulses, now, threshold, payload);
      assert rs[..0] == [];
      while i < |rs|
        invariant 0 <= i <= |rs| && chunks.Valid()
        invariant ScanAt(f0, State(), rs[..i], pulses, now, threshold, payload, assemble)
      {
        assemble := CheckNext(f0, rs, i, pulses, now, payload, assemble);
        i := i + 1;
      }
      assert rs[..i] == rs;
    }

    method CheckNext(ghost f0: Fleet, rs: seq<ReplicaId>, i: nat, pulses: map<ReplicaId, Pulse>, now: Time,
                     payload: string, assemble: bool) returns (assemble': bool)
      requires chunks.Valid() && i < |rs| && NoDup(rs) && forall r | r in rs :: r in pulses
      requires ScanAt(f0, State(), rs[..i], pulses, now, threshold, payload, assemble)
      modifies this, chunks, cluster, outbox
      ensures chunks.Valid()
      ensures ScanAt(f0, State(), rs[..i + 1], pulses, now, threshold, payload, assemble')
    {
      ghost var f := State();
      var called := CheckReplica(rs[i], pulses[rs[i]], now, payload);
      ScanNext(f0, f, State(), rs, i, pulses, now, threshold, payload, assemble, called);
      assemble' := assemble || called;
    }

    /** The scan's look at one replica. */
    method CheckReplica(r: ReplicaId, pulse: Pulse, now: Time, payload: string) returns (assemble: bool)
      requires chunks.Valid()
      modifies this, chunks, cluster, outbox
      ensures chunks.Valid()
      ensures LookMeans(old(State()), State(), r, pulse, now, threshold, payload)
      ensures assemble <==> Strikes(old(State()), r, pulse, now, threshold) && AllDone(State().q)
      ensures Looked(old(State()), State(), r, pulse, now, threshold, payload)
    {
      ghost var f := State();
      assemble := HandleIfOverdue(r, pulse, now, payload);
      LookIsMeant(chunks.cfg, f, State(), r, pulse, now, threshold, payload);
    }

    /** The decision branch by branch: the handling if the replica is overdue, or nothing. */
    method HandleIfOverdue(r: ReplicaId, pulse: Pulse, now: Time, payload: string) returns (assemble: bool)
      requires chunks.Valid()
      modifies this, chunks, cluster, outbox
      ensures chunks.Valid()
      ensures if IsOverdue(old(State()), r, pulse, now, threshold)
              then exists back :: Handling(chunks.cfg, old(State()), State(), r, now, payload, back)
              else State() == old(State())
      ensures assemble <==> Strikes(old(State()), r, pulse, now, threshold) && AllDone(State().q)
      ensures Looked(old(State()), State(), r, pulse, now, threshold, payload)
    {
      ghost var f := State();
      assemble := false;
      var p := PhaseOf(cluster.phases, r);
      if p == Launching || p == Provisioned || p == Phase.Completed || p == SwappedOut || p == Killed {
        return;
      }
      ghost var back;
      if p == Phase.Failed && r !in dead {
        assemble, back := HandleDeadReplica(r, false, now, payload);
        Handled(f, r, pulse, now, payload, back);
        return;
      }
      if p == Dead && r in dead {
        return;
      }
      if p == Running && pulse.lastBeat.Some? {
        if now - pulse.lastBeat.value > threshold {
          assemble, back := HandleDeadReplica(r, false, now, payload);
          Handled(f, r, pulse, now, payload, back);
        }
      } else if p == Running && pulse.lastBeat.None? {
        if pulse.runningSince.Some? && pulse.runningSince.value != 0.0 && now - pulse.runningSince.value > threshold {
          assemble, back := HandleDeadReplica(r, false, now, payload);
          Handled(f, r, pulse, now, payload, back);
        }
      }
    }

    lemma Handled(f: Fleet, r: ReplicaId, pulse: Pulse, now: Time, payload: string, back: seq<ChunkId>)
      requires WellFormed(f.q) && IsOverdue(f, r, pulse, now, threshold)
      requires r !in f.dead && !Graceful(f, r, false) ==> Orderly(chunks.cfg, f.q, r, back)
      ensures var f' := HandleDead(chunks.cfg, f, r, false, now, payload, back);
              Handling(chunks.cfg, f, f', r, now, payload, back) && Looked(f, f', r, pulse, now, threshold, payload)
    {
      var f' := HandleDead(chunks.cfg, f, r, false, now, payload, back);
      if r !in f.dead && !Graceful(f, r, false) {
        HandledOwnsNothing(chunks.cfg, f, r, false, now, payload, back);
        SubsetSize(f.q.failed, f'.q.failed);
      }
      forall other | other != r
        ensures WellFormed(f'.q) && Untouched(f, f', other)
      {
        HandleOthers(chunks.cfg, f, r, other, false, now, payload, back);
      }
    }
  }

  /** The monitor thread on its way out: the exit path, then the final block's fallback. */
  method MonitorReplica(cluster: ClusterManager, outbox: Outbox.OutboxDB, r: ReplicaId, exit: Exit, now: Time, payload: string)
    modifies cluster, outbox
    ensures outbox.rows == if MonitorAnnounces(PhaseOf(old(cluster.phases), r), exit)
                           then Announced(old(outbox.rows), r, payload, now) else old(outbox.rows)
    ensures PhaseOf(cluster.phases, r) == ExitPath(PhaseOf(old(cluster.phases), r), exit).0
    ensures Terminal(PhaseOf(cluster.phases, r)) || FailureId(r) in outbox.rows
    ensures var p := PhaseOf(old(cluster.phases), r);
            var over := p in {Phase.Completed, Phase.Failed, Dead, Killed, SwappedOut};
            && PhaseOf(cluster.phases, r) == (
                 if exit == Clean(Some(false)) then Phase.Failed
                 else if exit.Clean? then Phase.Completed
                 else if over || exit.cancelled || exit.jobDone then p
                 else Phase.Failed)
            && (outbox.rows != old(outbox.rows) ==> exit == Clean(Some(false)) || (exit.LogError? && !over))
            && (exit == Clean(Some(false)) || (exit.LogError? && !over) ==>
                  var key := Outbox.Dedup(Outbox.ReplicaFailed, r);
                  outbox.rows == if key in old(outbox.rows) then old(outbox.rows)
                                 else old(outbox.rows)[key := Outbox.Row("/job/replica-failed", payload, now, now, 0, None, None)])
    ensures cluster.phases - {r} == old(cluster.phases) - {r}
  {
    var enqueued := false;
    var id;
    match exit {
      case Clean(allDone) =>
        if allDone == Some(false) {
          cluster.SetPhase(r, Phase.Failed);
          id := outbox.Enqueue("/job/replica-failed", payload, Some(FailureId(r)), Outbox.Random(0), now);
          enqueued := true;
        } else {
          cluster.SetPhase(r, Phase.Completed);
        }
      case LogError(cancelled, jobDone) =>
        if !Terminal(PhaseOf(cluster.phases, r)) && !cancelled && !jobDone {
          cluster.SetPhase(r, Phase.Failed);
          id := outbox.Enqueue("/job/replica-failed", payload, Some(FailureId(r)), Outbox.Random(0), now);
          enqueued := true;
        }
    }
    if !enqueued && !Terminal(PhaseOf(cluster.phases, r)) {
      id := outbox.Enqueue("/job/replica-failed", payload, Some(FailureId(r)), Outbox.Random(0), now);
    }
  }

  method SplitTerminal(phases: map<ReplicaId, Phase>, rs: seq<ReplicaId>) returns (live: seq<ReplicaId>, terminal: seq<ReplicaId>)
    ensures Elems(live) == set r | r in rs && !Terminal(PhaseOf(phases, r))
    ensures Elems(terminal) == set r | r in rs && Terminal(PhaseOf(phases, r))
  {
    live, terminal := [], [];
    var i := 0;
    while i < |rs|
      invariant 0 <= i <= |rs|
      invariant forall r | r in live :: r in rs && !Terminal(PhaseOf(phases, r))
      invariant forall r | r in terminal :: r in rs && Terminal(PhaseOf(phases, r))
      invariant forall r | r in rs[..i] :: r in live || r in terminal
    {
      if Terminal(PhaseOf(phases, rs[i])) {
        terminal := terminal + [rs[i]];
      } else {
        live := live + [rs[i]];
      }
      i := i + 1;
    }
    assert rs[..i] == rs;
  }

  method SetPhases(cluster: ClusterManager, rs: seq<ReplicaId>, phase: Phase)
    modifies cluster
    ensures cluster.phases == old(cluster.phases) + map r | r in rs :: phase
  {
    var i := 0;
    while i < |rs|
      invariant 0 <= i <= |rs|
      invariant cluster.phases == old(cluster.phases) + map r | r in rs[..i] :: phase
    {
      assert rs[..i + 1] == rs[..i] + [rs[i]];
      cluster.SetPhase(rs[i], phase);
      i := i + 1;
    }
    assert rs[..i] == rs;
  }

  /** `_do_kill`: replicas already in a terminal phase are skipped, the others lose their chunks and get the phase;
      on the queue and the phases this is `DoKill`. */
  method KillReplicas(chunks: CM.ChunkManager, cluster: ClusterManager, rs: seq<ReplicaId>, phase: Phase, ghost now: Time)
    returns (toKill: seq<ReplicaId>, skipped: seq<ReplicaId>, reclaimed: nat, ghost back: seq<ChunkId>)
    requires chunks.Valid()
    modifies chunks, cluster
    ensures Elems(toKill) == KillTargets(old(cluster.phases), rs)
    ensures forall r :: r in toKill <==>
              r in rs && (r in old(cluster.phases) ==>
                            old(cluster.phases)[r] !in {Phase.Completed, Phase.Failed, Dead, Killed, SwappedOut})
    ensures forall c | c in old(chunks.inflight) :: c !in chunks.inflight <==> old(chunks.chunks)[c].owner in toKill
    ensures Elems(skipped) == set r | r in rs && Terminal(PhaseOf(old(cluster.phases), r))
    ensures var q, targets := old(chunks.State()), Elems(toKill);
            && Enumerates(back, Requeued(chunks.cfg, q, OwnedChunks(q, targets)))
            && chunks.State() == AfterReclaim(chunks.cfg, q, OwnedChunks(q, targets), back)
    ensures cluster.phases == old(cluster.phases) + map r | r in toKill :: phase
    ensures reclaimed == |back|
  {
    toKill, skipped := SplitTerminal(cluster.phases, rs);
    assert forall r :: r in toKill <==> r in Elems(toKill);
    if toKill == [] {
      reclaimed, back := 0, [];
      assert OwnedChunks(chunks.State(), Elems(toKill)) == {};
      NothingSelected(chunks.cfg, chunks.State());
    } else {
      var exhausted;
      reclaimed, exhausted, back := chunks.ForceReclaimOwned(Elems(toKill), now);
      SetPhases(cluster, toKill, phase);
    }
  }
}
