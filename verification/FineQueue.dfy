/** The queue at the granularity of single store commands. A pull is three commands (pop, add to inflight,
    write the lease) and a completion is two (test for completed, then one transaction); the Lua scripts are
    atomic. Commands of any number of clients interleave freely. */
module FineQueue {
  import opened Common
  import opened ChunkQueue

  type Client = nat

  /** What a pull in progress holds: a popped chunk, or one already added to inflight without a lease. */
  datatype Hand = Popped(chunk: ChunkId) | Added(chunk: ChunkId)

  datatype Fine = Fine(q: Queue, hands: map<Client, Hand>, checked: map<Client, ChunkId>)

  datatype Command =
    | LPop(p: Client)
    | SAdd(p: Client)
    | HSet(p: Client, replica: ReplicaId, at: Time)
    | ReclaimScript(at: Time, back: seq<ChunkId>)
    | ForceScript(replicas: set<ReplicaId>, back: seq<ChunkId>)
    | RenewScript(chunk: ChunkId, replica: ReplicaId, at: Time)
    | SIsMember(p: Client, chunk: ChunkId)
    | Exec(p: Client, at: Time)

  predicate WellFormedFine(f: Fine) {
    WellFormed(f.q) && forall p | p in f.hands :: f.hands[p].chunk in f.q.chunks
  }

  predicate Can(cfg: Config, f: Fine, m: Command)
    requires WellFormedFine(f)
  {
    match m
    case LPop(p) => p !in f.hands && f.q.pending != []
    case SAdd(p) => p in f.hands && f.hands[p].Popped?
    case HSet(p, _, _) => p in f.hands && f.hands[p].Added?
    case ReclaimScript(at, back) => Enumerates(back, Requeued(cfg, f.q, ExpiredChunks(f.q, at)))
    case ForceScript(replicas, back) => Enumerates(back, Requeued(cfg, f.q, OwnedChunks(f.q, replicas)))
    case RenewScript(_, _, _) => true
    case SIsMember(p, c) => p !in f.checked && c !in f.q.completed
    case Exec(p, _) => p in f.checked
  }

  function Do(cfg: Config, f: Fine, m: Command): Fine
    requires WellFormedFine(f) && Can(cfg, f, m)
  {
    match m
    case LPop(p) =>
      f.(q := f.q.(pending := f.q.pending[1..]), hands := f.hands[p := Popped(f.q.pending[0])])
    case SAdd(p) =>
      var c := f.hands[p].chunk;
      f.(q := f.q.(inflight := f.q.inflight + {c}), hands := f.hands[p := Added(c)])
    case HSet(p, r, at) =>
      var c := f.hands[p].chunk;
      f.(q := f.q.(chunks := f.q.chunks[c := Leased(cfg, f.q.chunks[c], r, at)]), hands := f.hands - {p})
    case ReclaimScript(at, back) =>
      f.(q := AfterReclaim(cfg, f.q, ExpiredChunks(f.q, at), back))
    case ForceScript(replicas, back) =>
      f.(q := AfterReclaim(cfg, f.q, OwnedChunks(f.q, replicas), back))
    case RenewScript(c, r, at) =>
      f.(q := AfterRenew(cfg, f.q, c, r, at))
    case SIsMember(p, c) =>
      f.(checked := f.checked[p := c])
    case Exec(p, at) =>
      f.(q := Promote(f.q, f.checked[p], at), checked := f.checked - {p})
  }

  /** Nobody holds a lease on the chunk yet. */
  predicate Unleased(q: Queue, c: ChunkId) {
    c in q.chunks && q.chunks[c].leaseUntil == 0.0 && q.chunks[c].status != Inflight
  }

  ghost predicate Holding(f: Fine, c: ChunkId) {
    exists p :: p in f.hands && f.hands[p].chunk == c
  }

  ghost predicate Tokens(f: Fine) {
    && WellFormed(f.q) && NoDup(f.q.pending)
    && (forall c | c in f.q.pending :: Unleased(f.q, c) && c !in f.q.inflight && !Holding(f, c))
    && (forall p | p in f.hands :: Unleased(f.q, f.hands[p].chunk))
    && (forall p | p in f.hands && f.hands[p].Popped? :: f.hands[p].chunk !in f.q.inflight)
    && (forall p, p' | p in f.hands && p' in f.hands && f.hands[p].chunk == f.hands[p'].chunk :: p == p')
  }

  lemma CreateTokens(order: seq<ChunkId>)
    requires NoDup(order)
    ensures Tokens(Fine(Create(order), map[], map[]))
  {
  }

  lemma TokensReclaim(cfg: Config, f: Fine, selected: set<ChunkId>, back: seq<ChunkId>)
    requires Tokens(f) && selected <= f.q.inflight
    requires Enumerates(back, Requeued(cfg, f.q, selected))
    ensures Tokens(f.(q := AfterReclaim(cfg, f.q, selected, back)))
            <==> forall c | c in back :: !Holding(f, c)
  {
    var f' := f.(q := AfterReclaim(cfg, f.q, selected, back));
    assert forall c :: Holding(f', c) <==> Holding(f, c);
    assert forall c | c in back :: c in f'.q.pending;
    NoDupAppend(f.q.pending, back);
    assert forall c | c in f'.q.pending :: c in f.q.pending || c in back;
  }

  lemma TokensPop(cfg: Config, f: Fine, p: Client)
    requires Tokens(f) && Can(cfg, f, LPop(p))
    ensures Tokens(Do(cfg, f, LPop(p)))
  {
    var f', c := Do(cfg, f, LPop(p)), f.q.pending[0];
    assert forall d | d in f'.q.pending :: d in f.q.pending && d != c;
    assert forall d | Holding(f', d) :: d == c || Holding(f, d);
    assert c in f.q.pending;
    assert forall p' | p' in f.hands :: Holding(f, f.hands[p'].chunk);
  }

  lemma TokensAdd(cfg: Config, f: Fine, p: Client)
    requires Tokens(f) && Can(cfg, f, SAdd(p))
    ensures Tokens(Do(cfg, f, SAdd(p)))
  {
    assert Holding(f, f.hands[p].chunk);
    assert forall d | Holding(Do(cfg, f, SAdd(p)), d) :: Holding(f, d);
  }

  lemma TokensSet(cfg: Config, f: Fine, p: Client, r: ReplicaId, at: Time)
    requires Tokens(f) && Can(cfg, f, HSet(p, r, at))
    ensures Tokens(Do(cfg, f, HSet(p, r, at)))
  {
    assert Holding(f, f.hands[p].chunk);
    assert forall d | Holding(Do(cfg, f, HSet(p, r, at)), d) :: Holding(f, d);
  }

  /** Every command but a force-reclaim keeps the tokens apart, in any interleaving. */
  lemma TokensDo(cfg: Config, f: Fine, m: Command)
    requires Tokens(f) && Can(cfg, f, m) && !m.ForceScript?
    ensures Tokens(Do(cfg, f, m))
  {
    match m
    case LPop(p) => TokensPop(cfg, f, p);
    case SAdd(p) => TokensAdd(cfg, f, p);
    case HSet(p, r, at) => TokensSet(cfg, f, p, r, at);
    case ReclaimScript(at, back) =>
      forall c | c in back
        ensures !Holding(f, c)
      {
        assert c in ExpiredChunks(f.q, at);
      }
      TokensReclaim(cfg, f, ExpiredChunks(f.q, at), back);
    case RenewScript(c, r, at) =>
      assert forall d :: Holding(Do(cfg, f, m), d) <==> Holding(f, d);
    case SIsMember(_, _) =>
      assert forall d :: Holding(Do(cfg, f, m), d) <==> Holding(f, d);
    case Exec(_, _) =>
      assert forall d :: Holding(Do(cfg, f, m), d) <==> Holding(f, d);
  }

  /** No chunk that a pull has added to inflight and not yet claimed carries the name of one of these replicas, unless
      it has no retries left. */
  predicate SparesAdded(cfg: Config, f: Fine, replicas: set<ReplicaId>)
    requires WellFormedFine(f)
  {
    forall p | p in f.hands && f.hands[p].chunk in f.q.inflight ::
      var k := f.q.chunks[f.hands[p].chunk];
      k.owner in replicas ==> k.retryCount + 1 >= cfg.maxRetries
  }

  /** A force-reclaim keeps them apart if and only if it takes back no chunk, to be retried, that a pull has
      added to inflight but not yet claimed: such a chunk still carries its former owner's name. */
  lemma TokensForce(cfg: Config, f: Fine, replicas: set<ReplicaId>, back: seq<ChunkId>)
    requires Tokens(f) && Can(cfg, f, ForceScript(replicas, back))
    ensures Tokens(Do(cfg, f, ForceScript(replicas, back))) <==> SparesAdded(cfg, f, replicas)
  {
    TokensReclaim(cfg, f, OwnedChunks(f.q, replicas), back);
    forall p | p in f.hands
      ensures Holding(f, f.hands[p].chunk)
    {
    }
    if forall c | c in back :: !Holding(f, c) {
      forall p | p in f.hands && f.hands[p].chunk in f.q.inflight
        ensures f.hands[p].chunk !in back
      {
      }
    }
  }

  // ------------------------------------------------------------------------- runs

  predicate Runnable(cfg: Config, f: Fine, ms: seq<Command>)
    requires WellFormedFine(f)
    decreases |ms|
  {
    ms == [] ||
    (Can(cfg, f, ms[0]) && WellFormedFine(Do(cfg, f, ms[0])) && Runnable(cfg, Do(cfg, f, ms[0]), ms[1..]))
  }

  function Result(cfg: Config, f: Fine, ms: seq<Command>): Fine
    requires WellFormedFine(f) && Runnable(cfg, f, ms)
    decreases |ms|
  {
    if ms == [] then f else Result(cfg, Do(cfg, f, ms[0]), ms[1..])
  }

  lemma {:induction false} TokensRun(cfg: Config, f: Fine, ms: seq<Command>)
    requires Tokens(f) && Runnable(cfg, f, ms)
    requires forall m | m in ms :: !m.ForceScript?
    ensures Tokens(Result(cfg, f, ms))
    decreases |ms|
  {
    if ms != [] {
      TokensDo(cfg, f, ms[0]);
      TokensRun(cfg, Do(cfg, f, ms[0]), ms[1..]);
    }
  }

  ghost predicate TokensThroughout(cfg: Config, f: Fine, ms: seq<Command>)
    requires WellFormedFine(f) && Runnable(cfg, f, ms)
    decreases |ms|
  {
    Tokens(f) && (ms == [] || TokensThroughout(cfg, Do(cfg, f, ms[0]), ms[1..]))
  }

  /** Every force-reclaim of the run spares the chunks that pulls have added and not yet claimed. */
  predicate EachSparesAdded(cfg: Config, f: Fine, ms: seq<Command>)
    requires WellFormedFine(f) && Runnable(cfg, f, ms)
    decreases |ms|
  {
    ms == [] ||
    (&& (ms[0].ForceScript? ==> SparesAdded(cfg, f, ms[0].replicas))
     && EachSparesAdded(cfg, Do(cfg, f, ms[0]), ms[1..]))
  }

  /** Over a whole run of all the commands the tokens stay apart throughout if and only if every force-reclaim spares
      the added chunks. */
  lemma {:induction false} TokensExactly(cfg: Config, f: Fine, ms: seq<Command>)
    requires Tokens(f) && WellFormedFine(f) && Runnable(cfg, f, ms)
    ensures TokensThroughout(cfg, f, ms) <==> EachSparesAdded(cfg, f, ms)
    decreases |ms|
  {
    if ms != [] {
      TokensCommand(cfg, f, ms[0]);
      if Tokens(Do(cfg, f, ms[0])) {
        TokensExactly(cfg, Do(cfg, f, ms[0]), ms[1..]);
      }
    }
  }

  lemma TokensCommand(cfg: Config, f: Fine, m: Command)
    requires Tokens(f) && WellFormedFine(f) && Can(cfg, f, m)
    ensures Tokens(Do(cfg, f, m)) <==> (m.ForceScript? ==> SparesAdded(cfg, f, m.replicas))
  {
    if m.ForceScript? {
      TokensForce(cfg, f, m.replicas, m.back);
    } else {
      TokensDo(cfg, f, m);
    }
  }

  /** How many times a chunk is live: in pending, popped by a pull, or inflight. */
  ghost function Live(f: Fine, c: ChunkId): nat {
    multiset(f.q.pending)[c]
    + |set p | p in f.hands && f.hands[p] == Popped(c)|
    + (if c in f.q.inflight then 1 else 0)
  }

  lemma {:induction false} OccursOnce(s: seq<ChunkId>, c: ChunkId)
    requires NoDup(s)
    ensures multiset(s)[c] == if c in s then 1 else 0
  {
    if s != [] {
      assert s == [s[0]] + s[1..];
      OccursOnce(s[1..], c);
    }
  }

  lemma AtMostOneToken(f: Fine, c: ChunkId)
    requires Tokens(f)
    ensures Live(f, c) <= 1
  {
    OccursOnce(f.q.pending, c);
    var holders := set p | p in f.hands && f.hands[p] == Popped(c);
    if p :| p in holders {
      assert holders == {p};
      assert Holding(f, c);
    } else {
      assert holders == {};
    }
  }

  /** In every interleaving of pulls, renewals, completions and expiry reclaims: a chunk has at most one live
      token; no replica can renew a chunk that waits in pending; and a chunk whose pull has not written its lease
      is safe from expiry reclaim, because its lease is still 0. */
  lemma OneTokenEach(cfg: Config, order: seq<ChunkId>, ms: seq<Command>, c: ChunkId)
    requires NoDup(order)
    requires Runnable(cfg, Fine(Create(order), map[], map[]), ms)
    requires forall m | m in ms :: !m.ForceScript?
    ensures var f := Result(cfg, Fine(Create(order), map[], map[]), ms);
            && Live(f, c) <= 1
            && (c in f.q.pending ==> forall r :: !CanRenew(f.q, c, r))
            && (Holding(f, c) ==> c !in f.q.pending && forall now :: WellFormed(f.q) && c !in ExpiredChunks(f.q, now))
  {
    var f := Result(cfg, Fine(Create(order), map[], map[]), ms);
    CreateTokens(order);
    TokensRun(cfg, Fine(Create(order), map[], map[]), ms);
    AtMostOneToken(f, c);
  }

  // --------------------------------------------------------------- nothing is lost

  /** The chunk is somewhere: waiting, popped by a pull, inflight, completed or failed. */
  ghost predicate Placed(f: Fine, c: ChunkId) {
    || c in f.q.pending
    || (exists p :: p in f.hands && f.hands[p] == Popped(c))
    || c in f.q.inflight
    || c in f.q.completed
    || c in f.q.failed
  }

  /** No command, a force-reclaim included, loses a chunk. */
  lemma PlacedDo(cfg: Config, f: Fine, m: Command, c: ChunkId)
    requires WellFormedFine(f) && Can(cfg, f, m) && Placed(f, c)
    ensures Placed(Do(cfg, f, m), c)
  {
    var f' := Do(cfg, f, m);
    if p :| p in f.hands && f.hands[p] == Popped(c) {
      if m == SAdd(p) {
        assert c in f'.q.inflight;
      } else {
        assert p in f'.hands && f'.hands[p] == Popped(c);
      }
    } else if c in f.q.pending && m.LPop? && c == f.q.pending[0] {
      assert f'.hands[m.p] == Popped(c);
    } else if c in f.q.pending && m.LPop? {
      assert c in f'.q.pending;
    }
  }

  lemma {:induction false} PlacedRun(cfg: Config, f: Fine, ms: seq<Command>, c: ChunkId)
    requires WellFormedFine(f) && Runnable(cfg, f, ms) && Placed(f, c)
    ensures Placed(Result(cfg, f, ms), c)
    decreases |ms|
  {
    if ms != [] {
      PlacedDo(cfg, f, ms[0], c);
      PlacedRun(cfg, Do(cfg, f, ms[0]), ms[1..], c);
    }
  }

  /** In every interleaving of all the commands each chunk of the job is somewhere. */
  lemma NothingLost(cfg: Config, order: seq<ChunkId>, ms: seq<Command>, c: ChunkId)
    requires Runnable(cfg, Fine(Create(order), map[], map[]), ms) && c in order
    ensures Placed(Result(cfg, Fine(Create(order), map[], map[]), ms), c)
  {
    PlacedRun(cfg, Fine(Create(order), map[], map[]), ms, c);
  }

  // ---------------------------------------------------- commands of one client alone

  /** Run without interruption, the three commands of a pull are the one step of the coarse model. */
  lemma PullIsTake(cfg: Config, f: Fine, p: Client, r: ReplicaId, at: Time)
    requires WellFormedFine(f) && p !in f.hands && f.q.pending != []
    ensures ThreeCommands(cfg, f, p, r, at) == f.(q := Take(cfg, f.q, r, at))
  {
    var f1 := Do(cfg, f, LPop(p));
    var f2 := Do(cfg, f1, SAdd(p));
    assert Do(cfg, f2, HSet(p, r, at)).hands == f.hands;
  }

  function ThreeCommands(cfg: Config, f: Fine, p: Client, r: ReplicaId, at: Time): Fine
    requires WellFormedFine(f) && p !in f.hands && f.q.pending != []
  {
    Do(cfg, Do(cfg, Do(cfg, f, LPop(p)), SAdd(p)), HSet(p, r, at))
  }

  /** A whole pull alone: the passive reclaim when pending is empty, then the three commands if it is not empty any
      more. */
  function WholePull(cfg: Config, f: Fine, p: Client, e: Event): Fine
    requires WellFormedFine(f) && p !in f.hands && e.Pull? && Enabled(cfg, f.q, e)
  {
    var f0 := if f.q.pending == [] then Do(cfg, f, ReclaimScript(e.reclaimAt, e.back)) else f;
    if f0.q.pending == [] then f0 else ThreeCommands(cfg, f0, p, e.replica, e.at)
  }

  /** It is the one step of the coarse model, in every case. */
  lemma PullIsNext(cfg: Config, f: Fine, p: Client, e: Event)
    requires WellFormedFine(f) && p !in f.hands && e.Pull? && Enabled(cfg, f.q, e)
    ensures WholePull(cfg, f, p, e) == f.(q := Next(cfg, f.q, e))
  {
    var f0 := if f.q.pending == [] then Do(cfg, f, ReclaimScript(e.reclaimAt, e.back)) else f;
    if f.q.pending != [] {
      EnumeratesNothing(e.back);
      NothingSelected(cfg, f.q);
    }
    assert f0.q == Swept(cfg, f.q, e) && f0.hands == f.hands && f0.checked == f.checked;
    if f0.q.pending != [] {
      PullIsTake(cfg, f0, p, e.replica, e.at);
    }
  }

  /** And the two commands of a completion are its one step. */
  lemma CompleteIsStep(cfg: Config, f: Fine, p: Client, c: ChunkId, at: Time)
    requires WellFormedFine(f) && p !in f.checked && c !in f.q.completed
    ensures var f1 := Do(cfg, f, SIsMember(p, c));
            Do(cfg, f1, Exec(p, at)) == f.(q := AfterComplete(f.q, c, at))
  {
    assert Do(cfg, Do(cfg, f, SIsMember(p, c)), Exec(p, at)).checked == f.checked;
  }
}
