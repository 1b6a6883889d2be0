/** Runs of the outbox against a receiver that applies an event id once. The publisher's drain pass is its single steps:
    claim a batch, then post and mark its rows one by one. Enqueues land anywhere in between, the process may crash at
    any point, and the table is durable, so a restart only forgets the pass. */
module OutboxRuns {
  import opened Common
  import opened Outbox

  /** What one POST comes to: accepted and answered 2xx; accepted but answered otherwise, or the answer lost;
      or not accepted. */
  datatype Fate = Accepted(code: int) | AcceptedUnacked(answer: Answer) | Refused(answer: Answer)

  predicate Sound(f: Fate) {
    match f
    case Accepted(code) => 200 <= code < 300
    case AcceptedUnacked(a) => !Ok(a)
    case Refused(a) => !Ok(a)
  }

  function AnswerOf(f: Fate): Answer {
    match f
    case Accepted(code) => Status(code)
    case AcceptedUnacked(a) => a
    case Refused(a) => a
  }

  predicate Reaches(f: Fate) { !f.Refused? }

  /** What the receiver has applied, in order. */
  datatype Applied = Applied(id: EventId, payload: string)

  function Ids(inbox: seq<Applied>): seq<EventId> {
    seq(|inbox|, i requires 0 <= i < |inbox| => inbox[i].id)
  }

  function Receive(inbox: seq<Applied>, id: EventId, payload: string): seq<Applied> {
    if id in Ids(inbox) then inbox else inbox + [Applied(id, payload)]
  }

  /** A drain pass under way: the rows as claimed, the row it is at, and what the POST of that row came to. */
  datatype Pass = Pass(claimed: Table, batch: seq<EventId>, next: nat, posted: Option<Fate>)

  /** `entered` and `acked` are history: the first payload enqueued under each id, and every id ever answered 2xx. */
  datatype World = World(rows: Table, clock: Time, inbox: seq<Applied>, entered: map<EventId, string>,
                         acked: set<EventId>, pass: Option<Pass>)

  datatype Op =
    | Enqueue(id: EventId, path: string, payload: string, at: Time)
    | Claim(limit: nat, batch: seq<EventId>, at: Time)
    | Post(fate: Fate, at: Time)
    | MarkRow(at: Time)
    | Finish(at: Time)
    | Crash(at: Time)
    | Prune(keep: Time, at: Time)

  predicate Possible(w: World, o: Op) {
    && w.clock <= o.at
    && match o
       case Enqueue(_, _, _, _) => true
       case Claim(limit, batch, at) => w.pass.None? && IsClaim(w.rows, at, limit, batch)
       case Post(f, _) => w.pass.Some? && w.pass.value.posted.None? && w.pass.value.next < |w.pass.value.batch| && Sound(f)
       case MarkRow(_) => w.pass.Some? && w.pass.value.posted.Some? && w.pass.value.next < |w.pass.value.batch|
       case Finish(_) => w.pass.Some? && w.pass.value.posted.None? && w.pass.value.next == |w.pass.value.batch|
       case Crash(_) => true
       case Prune(_, _) => w.pass.None?
  }

  /** One POST of a claimed row, with the payload it was claimed with: what the receiver does with it. */
  function Send(w: World, id: EventId, payload: string, f: Fate): World {
    if Reaches(f) then
      w.(inbox := Receive(w.inbox, id, payload), acked := w.acked + (if f.Accepted? then {id} else {}))
    else w
  }

  function Perform(w: World, o: Op): World
    requires Possible(w, o)
  {
    match o
    case Enqueue(id, path, payload, at) =>
      w.(rows := Insert(w.rows, id, FreshRow(path, payload, at)), clock := at,
        entered := if id in w.entered then w.entered else w.entered[id := payload])
    case Claim(_, batch, at) =>
      w.(clock := at, pass := Some(Pass(w.rows, batch, 0, None)))
    case Post(f, at) =>
      var p := w.pass.value;
      var id := p.batch[p.next];
      (if id in p.claimed then Send(w, id, p.claimed[id].payload, f) else w)
        .(clock := at, pass := Some(p.(posted := Some(f))))
    case MarkRow(at) =>
      var p := w.pass.value;
      w.(rows := Mark(w.rows, p.batch[p.next], AnswerOf(p.posted.value), at), clock := at,
        pass := Some(p.(next := p.next + 1, posted := None)))
    case Finish(at) => w.(clock := at, pass := None)
    case Crash(at) => w.(clock := at, pass := None)
    case Prune(keep, at) => w.(rows := Pruned(w.rows, at - keep), clock := at)
  }

  // -------------------------------------------------------------- at least once

  /** The payload is the one first enqueued under the id, or the id has been answered. */
  predicate Genuine(w: World, id: EventId, payload: string) {
    id in w.entered && (id in w.acked || payload == w.entered[id])
  }

  ghost predicate DurablePass(w: World) {
    w.pass.Some? ==>
      var p := w.pass.value;
      && (forall id | id in p.batch :: id in p.claimed && Genuine(w, id, p.claimed[id].payload))
      && (p.posted.Some? ==> p.next < |p.batch| && Sound(p.posted.value)
                             && (p.posted.value.Accepted? ==> p.batch[p.next] in w.acked))
  }

  ghost predicate Durable(w: World) {
    && (forall id | id in w.entered :: Undelivered(w.rows, id) || id in w.acked)
    && (forall id | id in w.rows && !Undelivered(w.rows, id) :: id in w.acked)
    && (forall id | id in w.rows :: Genuine(w, id, w.rows[id].payload))
    && (forall id | id in w.acked :: id in Ids(w.inbox))
    && (forall a | a in w.inbox :: a.id in w.entered && a.payload == w.entered[a.id])
    && NoDup(Ids(w.inbox))
    && DurablePass(w)
  }

  lemma ReceiveIds(inbox: seq<Applied>, id: EventId, payload: string)
    requires NoDup(Ids(inbox))
    ensures NoDup(Ids(Receive(inbox, id, payload)))
    ensures forall x :: x in Ids(Receive(inbox, id, payload)) <==> x in Ids(inbox) || x == id
  {
    if id !in Ids(inbox) {
      assert Ids(inbox + [Applied(id, payload)]) == Ids(inbox) + [id];
    }
  }

  lemma DurablePost(w: World, o: Op)
    requires Durable(w) && Possible(w, o) && o.Post?
    ensures Durable(Perform(w, o))
  {
    var p := w.pass.value;
    var id := p.batch[p.next];
    assert id in p.batch;
    if Reaches(o.fate) {
      ReceiveIds(w.inbox, id, p.claimed[id].payload);
    }
  }

  lemma DurableEnqueue(w: World, o: Op)
    requires Durable(w) && Possible(w, o) && o.Enqueue?
    ensures Durable(Perform(w, o))
  {
  }

  lemma DurableMark(w: World, o: Op)
    requires Durable(w) && Possible(w, o) && o.MarkRow?
    ensures Durable(Perform(w, o))
  {
  }

  lemma DurablePerform(w: World, o: Op)
    requires Durable(w) && Possible(w, o)
    ensures Durable(Perform(w, o))
  {
    if o.Post? {
      DurablePost(w, o);
    } else if o.Enqueue? {
      DurableEnqueue(w, o);
    } else if o.MarkRow? {
      DurableMark(w, o);
    }
  }

  // ------------------------------------------------------------------------ runs

  predicate Run(w: World, ops: seq<Op>)
    decreases |ops|
  {
    ops == [] || (Possible(w, ops[0]) && Run(Perform(w, ops[0]), ops[1..]))
  }

  function End(w: World, ops: seq<Op>): World
    requires Run(w, ops)
    decreases |ops|
  {
    if ops == [] then w else End(Perform(w, ops[0]), ops[1..])
  }

  lemma {:induction false} DurableRun(w: World, ops: seq<Op>)
    requires Durable(w) && Run(w, ops)
    ensures Durable(End(w, ops))
    decreases |ops|
  {
    if ops != [] {
      DurablePerform(w, ops[0]);
      DurableRun(Perform(w, ops[0]), ops[1..]);
    }
  }

  const START := World(map[], 0.0, [], map[], {}, None)

  /** In every run from an empty outbox, with any crashes and lost answers: each enqueued event is still waiting
      in the table or has been answered 2xx, the receiver has applied every answered event, it has applied no
      event id twice, and what it applied is the payload first enqueued under that id. */
  lemma AtLeastOnce(ops: seq<Op>)
    requires Run(START, ops)
    ensures var w := End(START, ops);
            && (forall id | id in w.entered :: Undelivered(w.rows, id) || id in w.acked)
            && (forall id | id in w.acked :: id in Ids(w.inbox))
            && (forall a | a in w.inbox :: a.id in w.entered && a.payload == w.entered[a.id])
            && NoDup(Ids(w.inbox))
  {
    DurableRun(START, ops);
  }

  // ------------------------------------------------------------ rows keep their text

  /** Table `t'` has the row of `t` with the same address, payload and creation time. */
  predicate SameText(t: Table, t': Table, id: EventId) {
    && id in t && id in t'
    && t'[id].path == t[id].path && t'[id].payload == t[id].payload && t'[id].createdAt == t[id].createdAt
  }

  /** Over one operation a row, delivered or not, keeps its text, or is pruned; and only a delivered row is. */
  lemma RowStep(w: World, o: Op, id: EventId)
    requires Possible(w, o) && id in w.rows
    ensures id in Perform(w, o).rows ==> SameText(w.rows, Perform(w, o).rows, id)
    ensures id !in Perform(w, o).rows ==> o.Prune? && !Undelivered(w.rows, id)
    ensures w.acked <= Perform(w, o).acked
  {
  }

  /** The row is in the table at every point of the run. */
  predicate Stays(w: World, ops: seq<Op>, id: EventId)
    requires Run(w, ops)
    decreases |ops|
  {
    id in w.rows && (ops == [] || Stays(Perform(w, ops[0]), ops[1..], id))
  }

  /** As long as a row is in the table its payload and address never change, delivered or not. */
  lemma {:induction false} RowsAreFixed(w: World, ops: seq<Op>, id: EventId)
    requires Run(w, ops) && Stays(w, ops, id)
    ensures SameText(w.rows, End(w, ops).rows, id)
    decreases |ops|
  {
    if ops != [] {
      RowStep(w, ops[0], id);
      RowsAreFixed(Perform(w, ops[0]), ops[1..], id);
    }
  }

  lemma {:induction false} AckedRun(w: World, ops: seq<Op>)
    requires Run(w, ops)
    ensures w.acked <= End(w, ops).acked
    decreases |ops|
  {
    if ops != [] {
      AckedRun(Perform(w, ops[0]), ops[1..]);
    }
  }

  /** A row that is not there through the whole run was answered 2xx: none leaves the table undelivered. */
  lemma {:induction false} LeavesOnlyAcked(w: World, ops: seq<Op>, id: EventId)
    requires Durable(w) && Run(w, ops) && id in w.rows && !Stays(w, ops, id)
    ensures id in End(w, ops).acked
    decreases |ops|
  {
    RowStep(w, ops[0], id);
    DurablePerform(w, ops[0]);
    if id in Perform(w, ops[0]).rows {
      LeavesOnlyAcked(Perform(w, ops[0]), ops[1..], id);
    } else {
      AckedRun(w, ops);
    }
  }

  // ------------------------------------------------------------ an undisturbed pass

  function Answers(fates: seq<Fate>): seq<Answer> {
    seq(|fates|, i requires 0 <= i < |fates| => AnswerOf(fates[i]))
  }

  /** The steps of a pass from its row `k` on. */
  function PassOps(fates: seq<Fate>, times: seq<Time>, k: nat, end: Time): seq<Op>
    requires k <= |fates| == |times|
    decreases |fates| - k
  {
    if k == |fates| then [Finish(end)]
    else [Post(fates[k], times[k]), MarkRow(times[k])] + PassOps(fates, times, k + 1, end)
  }

  /** The clock readings of the pass come one after the other. */
  predicate Timely(times: seq<Time>, from: Time, end: Time) {
    && (forall i | 0 <= i < |times| :: from <= times[i] <= end)
    && (forall i, j | 0 <= i < j < |times| :: times[i] <= times[j])
    && from <= end
  }

  /** The pass is about to post row `k`, and the table is what marking the rows before it made of `t`. */
  predicate AtRow(w: World, t: Table, batch: seq<EventId>, fates: seq<Fate>, times: seq<Time>, k: nat)
    requires k <= |fates| == |times| == |batch|
  {
    && w.pass.Some? && w.pass.value.batch == batch && w.pass.value.next == k && w.pass.value.posted.None?
    && w.rows == Settled(t, batch, Answers(fates), times, k)
  }

  lemma OneRow(w: World, t: Table, batch: seq<EventId>, fates: seq<Fate>, times: seq<Time>, k: nat) returns (w1: World, w2: World)
    requires k < |fates| == |times| == |batch| && Sound(fates[k]) && w.clock <= times[k]
    requires AtRow(w, t, batch, fates, times, k)
    ensures Possible(w, Post(fates[k], times[k])) && w1 == Perform(w, Post(fates[k], times[k]))
    ensures Possible(w1, MarkRow(times[k])) && w2 == Perform(w1, MarkRow(times[k]))
    ensures AtRow(w2, t, batch, fates, times, k + 1) && w2.clock == times[k]
  {
    w1 := Perform(w, Post(fates[k], times[k]));
    assert w1.rows == w.rows;
    w2 := Perform(w1, MarkRow(times[k]));
  }

  lemma TwoOps(w: World, w1: World, w2: World, a: Op, b: Op, rest: seq<Op>)
    requires Possible(w, a) && w1 == Perform(w, a) && Possible(w1, b) && w2 == Perform(w1, b) && Run(w2, rest)
    ensures Run(w, [a, b] + rest) && End(w, [a, b] + rest) == End(w2, rest)
  {
    assert ([a, b] + rest)[1..] == [b] + rest && ([b] + rest)[1..] == rest;
    assert Run(w1, [b] + rest) && End(w1, [b] + rest) == End(w2, rest);
  }

  lemma {:induction false} PassFrom(w: World, t: Table, batch: seq<EventId>, fates: seq<Fate>, times: seq<Time>, k: nat, from: Time, end: Time)
    requires k <= |fates| == |times| == |batch| && (forall f | f in fates :: Sound(f)) && Timely(times, from, end)
    requires w.clock <= (if k == |fates| then end else times[k])
    requires AtRow(w, t, batch, fates, times, k)
    ensures Run(w, PassOps(fates, times, k, end))
    ensures End(w, PassOps(fates, times, k, end)).rows == Settled(t, batch, Answers(fates), times, |batch|)
    decreases |fates| - k
  {
    if k == |fates| {
      var w1 := Perform(w, Finish(end));
      assert [Finish(end)][1..] == [] && End(w1, []) == w1;
    } else {
      assert fates[k] in fates;
      var w1, w2 := OneRow(w, t, batch, fates, times, k);
      PassFrom(w2, t, batch, fates, times, k + 1, from, end);
      TwoOps(w, w1, w2, Post(fates[k], times[k]), MarkRow(times[k]), PassOps(fates, times, k + 1, end));
    }
  }

  /** Undisturbed, the steps of a pass do to the table what the publisher's drain pass does. */
  lemma PassIsDrain(w: World, limit: nat, batch: seq<EventId>, fates: seq<Fate>, times: seq<Time>, at: Time, end: Time)
    requires w.pass.None? && w.clock <= at && IsClaim(w.rows, at, limit, batch)
    requires |fates| == |times| == |batch| && (forall f | f in fates :: Sound(f)) && Timely(times, at, end)
    ensures var ops := [Claim(limit, batch, at)] + PassOps(fates, times, 0, end);
            Run(w, ops) && End(w, ops).rows == Settled(w.rows, batch, Answers(fates), times, |batch|)
  {
    var ops := [Claim(limit, batch, at)] + PassOps(fates, times, 0, end);
    var w1 := Perform(w, ops[0]);
    assert ops[1..] == PassOps(fates, times, 0, end);
    PassFrom(w1, w.rows, batch, fates, times, 0, at, end);
  }

  // ------------------------------------------------------------ bounded overtaking

  /** The undelivered rows that may be claimed before `id`. */
  function Ahead(t: Table, id: EventId): set<EventId> {
    set y | y in t && y != id && Undelivered(t, y) && Next(t, y) <= Next(t, id)
  }

  predicate IsPosted(w: World, id: EventId) {
    w.pass.Some? && w.pass.value.posted.Some? && w.pass.value.next < |w.pass.value.batch|
    && w.pass.value.batch[w.pass.value.next] == id
  }

  /** `id` waits: it is due, and not posted right now. */
  predicate Waits(w: World, id: EventId) {
    Due(w.rows, id, w.clock) && !IsPosted(w, id)
  }

  /** A marked row is delivered, or scheduled strictly later than the marking. */
  lemma MarkedRow(t: Table, id: EventId, a: Answer, now: Time)
    ensures Mark(t, id, a, now).Keys == t.Keys
    ensures forall y | y in t && y != id :: Mark(t, id, a, now)[y] == t[y]
    ensures !Undelivered(Mark(t, id, a, now), id) || Next(Mark(t, id, a, now), id) > now
  {
    if id in t {
      BackoffGrows(t[id].attempts + 1, t[id].attempts + 1);
    }
  }

  /** A row enqueued at the very instant `due`: the claim query may order it before one that falls due then. */
  predicate Ties(o: Op, due: Time) {
    o.Enqueue? && o.at == due
  }

  /** Marking another row leaves `id` as it is, and takes that row from those ahead of it. */
  lemma MarkAhead(w: World, o: Op, id: EventId)
    requires Waits(w, id) && o.MarkRow? && Possible(w, o)
    ensures var y, t := w.pass.value.batch[w.pass.value.next], Perform(w, o).rows;
            && y != id && id in t && t[id] == w.rows[id]
            && Ahead(t, id) == Ahead(w.rows, id) - {y}
            && |Ahead(t, id)| == |Ahead(w.rows, id)| - if y in Ahead(w.rows, id) then 1 else 0
  {
    var p := w.pass.value;
    MarkedRow(w.rows, p.batch[p.next], AnswerOf(p.posted.value), o.at);
    assert Ahead(Perform(w, o).rows, id) == Ahead(w.rows, id) - {p.batch[p.next]};
  }

  lemma EnqueueAhead(w: World, o: Op, id: EventId)
    requires Waits(w, id) && o.Enqueue? && Possible(w, o)
    ensures var t, tie := Perform(w, o).rows, Ties(o, Next(w.rows, id));
            && id in t && t[id] == w.rows[id] && Ahead(w.rows, id) <= Ahead(t, id)
            && |Ahead(t, id)| <= |Ahead(w.rows, id)| + if tie then 1 else 0
  {
    var after := Ahead(Perform(w, o).rows, id);
    SubsetSize(after, if Ties(o, Next(w.rows, id)) then Ahead(w.rows, id) + {o.id} else Ahead(w.rows, id));
  }

  lemma PruneAhead(t: Table, cutoff: Time, id: EventId)
    requires Undelivered(t, id)
    ensures Undelivered(Pruned(t, cutoff), id) && Pruned(t, cutoff)[id] == t[id]
    ensures Ahead(Pruned(t, cutoff), id) == Ahead(t, id)
  {
  }

  /** Nothing but an enqueue at the instant `id` falls due can put a row ahead of it. */
  lemma OthersAhead(w: World, o: Op, id: EventId)
    requires Waits(w, id) && !o.MarkRow? && Possible(w, o)
    ensures var t, tie := Perform(w, o).rows, Ties(o, Next(w.rows, id));
            && id in t && t[id] == w.rows[id] && Ahead(w.rows, id) <= Ahead(t, id)
            && |Ahead(t, id)| <= |Ahead(w.rows, id)| + if tie then 1 else 0
  {
    if o.Enqueue? {
      EnqueueAhead(w, o, id);
    } else if o.Prune? {
      PruneAhead(w.rows, o.at - o.keep, id);
    } else {
      assert Perform(w, o).rows == w.rows;
    }
  }

  /** The current pass was claimed while `id` waited: `id` is in the part still to be posted, or the batch is full and
      that part is ahead of `id`. */
  predicate Chasing(w: World, id: EventId, limit: nat) {
    && w.pass.Some? && w.pass.value.next <= |w.pass.value.batch| && NoDup(w.pass.value.batch)
    && var left := w.pass.value.batch[w.pass.value.next..];
       id in left || (|w.pass.value.batch| == limit && forall y | y in left :: y in Ahead(w.rows, id))
  }

  /** The rows this pass has taken from those ahead of `id` so far. */
  function Taken(w: World, id: EventId): nat {
    if w.pass.Some? && w.pass.value.next <= |w.pass.value.batch| && id !in w.pass.value.batch[w.pass.value.next..]
    then w.pass.value.next else 0
  }

  /** Whether the pass under way, if any, was claimed since the beginning. */
  function Begun(o: Op, begun: bool): bool {
    o.Claim? || (begun && !o.Finish? && !o.Crash?)
  }

  lemma ClaimChases(w: World, o: Op, id: EventId)
    requires Waits(w, id) && o.Claim? && Possible(w, o)
    ensures Chasing(Perform(w, o), id, o.limit) && Taken(Perform(w, o), id) == 0
  {
    assert o.batch[0..] == o.batch;
  }

  lemma MarkChases(w: World, o: Op, id: EventId, limit: nat)
    requires Waits(w, id) && o.MarkRow? && Possible(w, o) && Chasing(w, id, limit)
    ensures Chasing(Perform(w, o), id, limit)
    ensures |Ahead(Perform(w, o).rows, id)| + Taken(Perform(w, o), id) <= |Ahead(w.rows, id)| + Taken(w, id)
  {
    var p := w.pass.value;
    var y := p.batch[p.next];
    MarkAhead(w, o, id);
    assert p.batch[p.next..] == [y] + p.batch[p.next + 1..];
    forall x | x in p.batch[p.next + 1..]
      ensures x in p.batch[p.next..] && x != y
    {
      var i :| p.next + 1 <= i < |p.batch| && p.batch[i] == x;
    }
  }

  /** One operation that does not post `id`: it goes on waiting; and the rows ahead of it and those taken by the current
      pass grow together only by ties, and a pass that finishes has taken `limit`. */
  lemma OvertakeStep(w: World, o: Op, id: EventId, begun: bool, limit: nat)
    requires Waits(w, id) && Possible(w, o) && !IsPosted(Perform(w, o), id)
    requires (begun ==> Chasing(w, id, limit)) && (o.Claim? ==> o.limit == limit)
    ensures var w', begun' := Perform(w, o), Begun(o, begun);
            && Waits(w', id) && Next(w'.rows, id) == Next(w.rows, id)
            && (begun' ==> Chasing(w', id, limit))
            && |Ahead(w'.rows, id)| + (if begun' then Taken(w', id) else 0) + (if o.Finish? && begun then limit else 0)
               <= |Ahead(w.rows, id)| + (if begun then Taken(w, id) else 0) + (if Ties(o, Next(w.rows, id)) then 1 else 0)
  {
    if o.MarkRow? {
      MarkAhead(w, o, id);
      if begun {
        MarkChases(w, o, id, limit);
      }
    } else {
      OthersAhead(w, o, id);
      if o.Claim? {
        ClaimChases(w, o, id);
      }
    }
  }

  /** No pass of the run posts `id`, and every pass claims with the same batch size. */
  predicate Spares(w: World, ops: seq<Op>, limit: nat, id: EventId)
    requires Run(w, ops)
    decreases |ops|
  {
    ops == [] ||
    (&& !IsPosted(Perform(w, ops[0]), id) && (ops[0].Claim? ==> ops[0].limit == limit)
     && Spares(Perform(w, ops[0]), ops[1..], limit, id))
  }

  /** The passes that were claimed in the run, or before it if `begun`, and got through their batch. */
  function FullPasses(ops: seq<Op>, begun: bool): nat {
    if ops == [] then 0
    else (if ops[0].Finish? && begun then 1 else 0) + FullPasses(ops[1..], Begun(ops[0], begun))
  }

  function TieCount(ops: seq<Op>, due: Time): nat {
    if ops == [] then 0 else (if Ties(ops[0], due) then 1 else 0) + TieCount(ops[1..], due)
  }

  lemma {:induction false} OvertakenRun(w: World, ops: seq<Op>, limit: nat, id: EventId, begun: bool)
    requires Waits(w, id) && Run(w, ops) && Spares(w, ops, limit, id)
    requires begun ==> Chasing(w, id, limit)
    ensures FullPasses(ops, begun) * limit
            <= |Ahead(w.rows, id)| + (if begun then Taken(w, id) else 0) + TieCount(ops, Next(w.rows, id))
    decreases |ops|
  {
    if ops != [] {
      var o := ops[0];
      OvertakeStep(w, o, id, begun, limit);
      OvertakenRun(Perform(w, o), ops[1..], limit, id, Begun(o, begun));
      Distributes(if o.Finish? && begun then 1 else 0, FullPasses(ops[1..], Begun(o, begun)), limit);
    }
  }

  lemma Distributes(a: nat, b: nat, d: nat)
    ensures (a + b) * d == a * d + b * d
  {
  }

  /** A due row with k undelivered rows ahead of it is posted within floor((k + t) / limit) + 1 complete passes,
      whatever the receiver answers, whatever is enqueued before, between or during passes, and however many of them
      crash, where t is the number of rows enqueued at the very instant it falls due: a run that does not post it has
      at most floor((k + t) / limit) of them. */
  lemma BoundedOvertaking(w: World, ops: seq<Op>, limit: nat, id: EventId)
    requires Waits(w, id) && Run(w, ops) && Spares(w, ops, limit, id) && limit > 0
    ensures FullPasses(ops, false) <= (|Ahead(w.rows, id)| + TieCount(ops, Next(w.rows, id))) / limit
  {
    OvertakenRun(w, ops, limit, id, false);
    AtMostQuotient(FullPasses(ops, false), limit, |Ahead(w.rows, id)| + TieCount(ops, Next(w.rows, id)));
  }

  /** Once the clock is past its due time there are no such rows. */
  lemma {:induction false} NoTiesLater(w: World, ops: seq<Op>, due: Time)
    requires Run(w, ops) && due < w.clock
    ensures TieCount(ops, due) == 0
    decreases |ops|
  {
    if ops != [] {
      NoTiesLater(Perform(w, ops[0]), ops[1..], due);
    }
  }
}
