/** The chunk queue of one job as a value, and what each operation on it does.

    The store keeps a pending list, three sets and one hash per chunk. The only
    choice the operations leave open is the order in which a reclaim re-queues
    chunks (the store lists a set in no fixed order); each event carries that
    order as `back`, so a run is a sequence of events and `Next` is a function. */
module ChunkQueue {
  import opened Common

  // Names are only ever compared, so they are numbers here; 0 is the empty replica name.
  type ChunkId = nat
  type ReplicaId = nat
  type Time = real

  datatype Config = Config(leaseTtl: Time, maxRetries: int)

  datatype Status = Pending | Inflight | Completed | Failed

  datatype Chunk = Chunk(status: Status, owner: ReplicaId, startedAt: Time,
                         completedAt: Time, leaseUntil: Time, retryCount: nat)

  datatype Queue = Queue(order: seq<ChunkId>, pending: seq<ChunkId>, inflight: set<ChunkId>,
                         completed: set<ChunkId>, failed: set<ChunkId>, chunks: map<ChunkId, Chunk>)

  const FRESH_CHUNK := Chunk(Pending, 0, 0.0, 0.0, 0.0, 0)

  /** What `create_job_queue` leaves in the store. */
  function Create(order: seq<ChunkId>): Queue {
    Queue(order, order, {}, {}, {}, map c | c in order :: FRESH_CHUNK)
  }

  /** Every queued or leased chunk has its hash. */
  predicate WellFormed(q: Queue) {
    && (forall c | c in q.pending :: c in q.chunks)
    && (forall c | c in q.inflight :: c in q.chunks)
  }

  // ------------------------------------------------------------------ reclaim

  predicate Expired(k: Chunk, now: Time) {
    0.0 < k.leaseUntil < now
  }

  function ExpiredChunks(q: Queue, now: Time): set<ChunkId>
    requires WellFormed(q)
  {
    set c | c in q.inflight && Expired(q.chunks[c], now)
  }

  function OwnedChunks(q: Queue, replicas: set<ReplicaId>): set<ChunkId>
    requires WellFormed(q)
  {
    set c | c in q.inflight && q.chunks[c].owner in replicas
  }

  /** One more failed attempt: back to pending without a lease, or failed for good. */
  function Retried(cfg: Config, k: Chunk): Chunk {
    if k.retryCount + 1 >= cfg.maxRetries then
      k.(status := Failed, retryCount := k.retryCount + 1)
    else
      k.(status := Pending, retryCount := k.retryCount + 1, leaseUntil := 0.0)
  }

  function Requeued(cfg: Config, q: Queue, selected: set<ChunkId>): set<ChunkId>
    requires WellFormed(q) && selected <= q.inflight
  {
    set c | c in selected && q.chunks[c].retryCount + 1 < cfg.maxRetries
  }

  function Exhausted(cfg: Config, q: Queue, selected: set<ChunkId>): set<ChunkId>
    requires WellFormed(q) && selected <= q.inflight
  {
    set c | c in selected && q.chunks[c].retryCount + 1 >= cfg.maxRetries
  }

  /** The set-level step both reclaim scripts amount to. */
  function AfterReclaim(cfg: Config, q: Queue, selected: set<ChunkId>, back: seq<ChunkId>): Queue
    requires WellFormed(q) && selected <= q.inflight
  {
    q.(inflight := q.inflight - selected,
       pending := q.pending + back,
       failed := q.failed + Exhausted(cfg, q, selected),
       chunks := map c | c in q.chunks ::
         if c in selected then Retried(cfg, q.chunks[c]) else q.chunks[c])
  }

  // --------------------------------------------------------------------- pull

  function Leased(cfg: Config, k: Chunk, r: ReplicaId, at: Time): Chunk {
    k.(status := Inflight, owner := r, startedAt := at, leaseUntil := at + cfg.leaseTtl)
  }

  /** The head of pending goes to replica `r` with a lease from `at`. */
  function Take(cfg: Config, q: Queue, r: ReplicaId, at: Time): Queue
    requires WellFormed(q) && q.pending != []
  {
    var c := q.pending[0];
    q.(pending := q.pending[1..],
       inflight := q.inflight + {c},
       chunks := q.chunks[c := Leased(cfg, q.chunks[c], r, at)])
  }

  // -------------------------------------------------------- renew and complete

  predicate CanRenew(q: Queue, c: ChunkId, r: ReplicaId) {
    c in q.chunks && q.chunks[c].status == Inflight && q.chunks[c].owner == r
  }

  function AfterRenew(cfg: Config, q: Queue, c: ChunkId, r: ReplicaId, at: Time): Queue {
    if CanRenew(q, c, r) then
      q.(chunks := q.chunks[c := q.chunks[c].(leaseUntil := at + cfg.leaseTtl)])
    else q
  }

  /** The transaction of a completion: out of inflight and failed, into completed. Pending is not touched. */
  function Promote(q: Queue, c: ChunkId, at: Time): Queue {
    var k := if c in q.chunks then q.chunks[c] else FRESH_CHUNK;
    q.(inflight := q.inflight - {c},
       failed := q.failed - {c},
       completed := q.completed + {c},
       chunks := q.chunks[c := k.(status := Completed, completedAt := at)])
  }

  /** A completion is accepted whoever sends it and wherever the chunk is, once. */
  function AfterComplete(q: Queue, c: ChunkId, at: Time): Queue {
    if c in q.completed then q else Promote(q, c, at)
  }

  // ----------------------------------------------------------------- progress

  function Total(q: Queue): nat { |q.order| }

  predicate AllDone(q: Queue) {
    |q.completed| + |q.failed| >= Total(q) && Total(q) > 0
  }

  // ------------------------------------------------------------------- events

  datatype Event =
    | Pull(replica: ReplicaId, reclaimAt: Time, at: Time, back: seq<ChunkId>)
    | Renew(chunk: ChunkId, replica: ReplicaId, at: Time)
    | Reclaim(at: Time, back: seq<ChunkId>)
    | ForceReclaim(replicas: set<ReplicaId>, at: Time, back: seq<ChunkId>)
    | Complete(chunk: ChunkId, replica: ReplicaId, at: Time)

  /** The inflight chunks an event takes back from their owners. */
  function Selected(q: Queue, e: Event): set<ChunkId>
    requires WellFormed(q)
  {
    match e
    case Pull(_, reclaimAt, _, _) => if q.pending == [] then ExpiredChunks(q, reclaimAt) else {}
    case Reclaim(at, _) => ExpiredChunks(q, at)
    case ForceReclaim(replicas, _, _) => OwnedChunks(q, replicas)
    case _ => {}
  }

  function Back(e: Event): seq<ChunkId> {
    match e
    case Pull(_, _, _, back) => back
    case Reclaim(_, back) => back
    case ForceReclaim(_, _, back) => back
    case _ => []
  }

  /** The order the event names is one in which the reclaim loop could have re-queued. */
  predicate Enabled(cfg: Config, q: Queue, e: Event)
    requires WellFormed(q)
  {
    Enumerates(Back(e), Requeued(cfg, q, Selected(q, e)))
  }

  /** The queue once the reclaim part of an event is over; the queue itself if it has none. */
  function Swept(cfg: Config, q: Queue, e: Event): Queue
    requires WellFormed(q)
  {
    AfterReclaim(cfg, q, Selected(q, e), Back(e))
  }

  lemma SweptWellFormed(cfg: Config, q: Queue, e: Event)
    requires WellFormed(q) && Enabled(cfg, q, e)
    ensures WellFormed(Swept(cfg, q, e))
  {
  }

  /** The chunk a pull hands out. */
  function Handed(cfg: Config, q: Queue, e: Event): Option<ChunkId>
    requires WellFormed(q)
  {
    if e.Pull? && Swept(cfg, q, e).pending != [] then Some(Swept(cfg, q, e).pending[0]) else None
  }

  function Next(cfg: Config, q: Queue, e: Event): Queue
    requires WellFormed(q) && Enabled(cfg, q, e)
  {
    SweptWellFormed(cfg, q, e);
    var swept := Swept(cfg, q, e);
    match e
    case Pull(r, _, at, _) => if swept.pending == [] then swept else Take(cfg, swept, r, at)
    case Renew(c, r, at) => AfterRenew(cfg, swept, c, r, at)
    case Reclaim(_, _) => swept
    case ForceReclaim(_, _, _) => swept
    case Complete(c, _, at) => AfterComplete(swept, c, at)
  }

  lemma NothingSelected(cfg: Config, q: Queue)
    requires WellFormed(q)
    ensures AfterReclaim(cfg, q, {}, []) == q
  {
    assert AfterReclaim(cfg, q, {}, []).chunks == q.chunks;
  }

  /** A completion and a renewal have no reclaim part. */
  lemma NextPlain(cfg: Config, q: Queue, e: Event)
    requires WellFormed(q) && (e.Renew? || e.Complete?)
    ensures Enabled(cfg, q, e)
    ensures Swept(cfg, q, e) == q
    ensures Next(cfg, q, e) == if e.Renew? then AfterRenew(cfg, q, e.chunk, e.replica, e.at)
                               else AfterComplete(q, e.chunk, e.at)
  {
    NothingSelected(cfg, q);
  }

  lemma NextWellFormed(cfg: Config, q: Queue, e: Event)
    requires WellFormed(q) && Enabled(cfg, q, e)
    ensures WellFormed(Next(cfg, q, e))
  {
    SweptWellFormed(cfg, q, e);
  }
}
