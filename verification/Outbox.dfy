/** The durable outbox: one row per event id, claimed in order of next attempt, rescheduled on failure with a
    capped backoff, deleted some time after delivery. */
module Outbox {
  import opened Common

  type Time = real

  datatype Topic = ReplicaFailed | JobComplete | JobStarted | JobLaunching | LaunchFailed

  /** A random id, or a dedup key made of a topic and the name of its subject. */
  datatype EventId = Random(n: nat) | Dedup(topic: Topic, subject: nat)

  datatype Row = Row(path: string, payload: string, createdAt: Time, nextAttemptAt: Time, attempts: nat,
                     deliveredAt: Option<Time>, lastStatus: Option<int>)

  type Table = map<EventId, Row>

  function FreshRow(path: string, payload: string, now: Time): Row {
    Row(path, payload, now, now, 0, None, None)
  }

  /** INSERT OR IGNORE. */
  function Insert(t: Table, id: EventId, row: Row): Table {
    if id in t then t else t[id := row]
  }

  predicate Undelivered(t: Table, id: EventId) {
    id in t && t[id].deliveredAt == None
  }

  predicate Due(t: Table, id: EventId, now: Time) {
    Undelivered(t, id) && t[id].nextAttemptAt <= now
  }

  function Next(t: Table, id: EventId): Time {
    if id in t then t[id].nextAttemptAt else 0.0
  }

  function Pow2(n: nat): nat {
    if n == 0 then 1 else 2 * Pow2(n - 1)
  }

  const MAX_BACKOFF := 30.0

  /** min(2^(attempts - 1), MAX_BACKOFF) */
  function Backoff(attempts: nat): Time
    requires attempts >= 1
  {
    if Pow2(attempts - 1) as real < MAX_BACKOFF then Pow2(attempts - 1) as real else MAX_BACKOFF
  }

  function Delivered(t: Table, id: EventId, now: Time): Table {
    if id in t then t[id := t[id].(deliveredAt := Some(now), lastStatus := None)] else t
  }

  function Rescheduled(t: Table, id: EventId, now: Time, status: Option<int>): Table {
    if id in t then
      t[id := t[id].(attempts := t[id].attempts + 1, nextAttemptAt := now + Backoff(t[id].attempts + 1),
                     lastStatus := status)]
    else t
  }

  predicate Prunable(row: Row, cutoff: Time) {
    row.deliveredAt.Some? && row.deliveredAt.value < cutoff
  }

  function Pruned(t: Table, cutoff: Time): Table {
    map id | id in t && !Prunable(t[id], cutoff) :: t[id]
  }

  /** What the claim query may return: at most `limit` due rows, earliest first, ties in any order. */
  predicate IsClaim(t: Table, now: Time, limit: nat, batch: seq<EventId>) {
    && NoDup(batch) && |batch| <= limit
    && (forall id | id in batch :: Due(t, id, now))
    && (forall i, j | 0 <= i < j < |batch| :: Next(t, batch[i]) <= Next(t, batch[j]))
    && (forall id | id in t && Due(t, id, now) && id !in batch ::
          |batch| == limit && forall b | b in batch :: Next(t, b) <= Next(t, id))
  }

  /** The receiver's answer to one POST: a status code, or an exception before any. */
  datatype Answer = Status(code: int) | Raised

  predicate Ok(a: Answer) {
    a.Status? && 200 <= a.code < 300
  }

  function Reported(a: Answer): Option<int> {
    if a.Status? && a.code != 0 then Some(a.code) else None
  }

  function Mark(t: Table, id: EventId, a: Answer, now: Time): Table {
    if Ok(a) then Delivered(t, id, now) else Rescheduled(t, id, now, Reported(a))
  }

  /** The table after the first `n` claimed rows have been posted and marked. */
  function Settled(t: Table, batch: seq<EventId>, answers: seq<Answer>, times: seq<Time>, n: nat): Table
    requires n <= |batch| && n <= |answers| && n <= |times|
  {
    if n == 0 then t
    else Mark(Settled(t, batch, answers, times, n - 1), batch[n - 1], answers[n - 1], times[n - 1])
  }

  function OkCount(answers: seq<Answer>, n: nat): nat
    requires n <= |answers|
  {
    if n == 0 then 0 else OkCount(answers, n - 1) + (if Ok(answers[n - 1]) then 1 else 0)
  }

  lemma {:induction false} Pow2Monotone(m: nat, n: nat)
    requires m <= n
    ensures 1 <= Pow2(m) <= Pow2(n)
    decreases n
  {
    if n == 0 {
    } else if m < n {
      Pow2Monotone(m, n - 1);
    } else {
      Pow2Monotone(m - 1, n - 1);
    }
  }

  /** The backoff starts at one second, never shrinks as attempts grow, and is capped. */
  lemma BackoffGrows(m: nat, n: nat)
    requires 1 <= m <= n
    ensures 1.0 <= Backoff(m) <= Backoff(n) <= 30.0
    ensures n >= 6 ==> Backoff(n) == 30.0
  {
    Pow2Monotone(m - 1, n - 1);
    if n >= 6 {
      Pow2Monotone(5, n - 1);
      assert Pow2(2) == 4 && Pow2(3) == 8 && Pow2(4) == 16 && Pow2(5) == 32;
    }
  }

  /** The row after the failures at the given times. */
  function AfterFailures(t: Table, id: EventId, times: seq<Time>): Table {
    if times == [] then t
    else Rescheduled(AfterFailures(t, id, times[..|times| - 1]), id, times[|times| - 1], None)
  }

  /** The n-th failure in a row counts n attempts and waits min(2^(n-1), 30) seconds from then: 1, 2, 4, 8, 16, 30. */
  lemma {:induction false} FailureSchedule(t: Table, id: EventId, times: seq<Time>)
    requires id in t && t[id].attempts == 0
    ensures id in AfterFailures(t, id, times) && AfterFailures(t, id, times)[id].attempts == |times|
    ensures times != [] ==> AfterFailures(t, id, times)[id].nextAttemptAt == times[|times| - 1] + Backoff(|times|)
    ensures Backoff(1) == 1.0 && Backoff(2) == 2.0 && Backoff(3) == 4.0 && Backoff(4) == 8.0 && Backoff(5) == 16.0
    decreases |times|
  {
    assert Pow2(0) == 1 && Pow2(1) == 2 && Pow2(2) == 4 && Pow2(3) == 8 && Pow2(4) == 16;
    if times != [] {
      FailureSchedule(t, id, times[..|times| - 1]);
    }
  }

  /** A row of the pass that began with table `t`, answered `a` and marked at `now`: delivered then if the answer was 2xx;
      otherwise undelivered as before, with one more attempt, the next of them later, and the code noted unless 0. */
  predicate Treated(t: Table, t': Table, id: EventId, a: Answer, now: Time) {
    && id in t && id in t'
    && t'[id].path == t[id].path && t'[id].payload == t[id].payload && t'[id].createdAt == t[id].createdAt
    && if a.Status? && 200 <= a.code < 300
       then t'[id].deliveredAt == Some(now) && t'[id].lastStatus == None && t'[id].attempts == t[id].attempts
       else && t'[id].deliveredAt == t[id].deliveredAt && t'[id].attempts == t[id].attempts + 1
            && t'[id].nextAttemptAt == now + Backoff(t[id].attempts + 1) && t'[id].nextAttemptAt > now
            && t'[id].lastStatus == if a.Status? && a.code != 0 then Some(a.code) else None
  }

  lemma MarkTreats(t: Table, id: EventId, a: Answer, now: Time)
    requires id in t
    ensures Treated(t, Mark(t, id, a, now), id, a, now)
    ensures Mark(t, id, a, now).Keys == t.Keys && forall y | y in t && y != id :: Mark(t, id, a, now)[y] == t[y]
  {
    BackoffGrows(t[id].attempts + 1, t[id].attempts + 1);
  }

  /** From table `t` to table `t'`: the first `n` rows of the batch were treated as they were answered, no other row
      changed, and none came or went. */
  predicate TreatedAll(t: Table, t': Table, batch: seq<EventId>, answers: seq<Answer>, times: seq<Time>, n: nat)
    requires n <= |batch| && n <= |answers| && n <= |times|
  {
    && t'.Keys == t.Keys
    && (forall y | y in t && y !in batch[..n] :: t'[y] == t[y])
    && (forall i | 0 <= i < n :: Treated(t, t', batch[i], answers[i], times[i]))
  }

  lemma TreatedOneMore(t: Table, before: Table, batch: seq<EventId>, answers: seq<Answer>, times: seq<Time>, m: nat)
    requires m < |batch| && m < |answers| && m < |times| && NoDup(batch)
    requires batch[m] in t && TreatedAll(t, before, batch, answers, times, m)
    ensures TreatedAll(t, Mark(before, batch[m], answers[m], times[m]), batch, answers, times, m + 1)
  {
    var id := batch[m];
    var after := Mark(before, id, answers[m], times[m]);
    assert batch[..m + 1] == batch[..m] + [id] && id !in batch[..m];
    MarkTreats(before, id, answers[m], times[m]);
    TreatedFrom(t, before, after, id, answers[m], times[m]);
    forall i | 0 <= i < m
      ensures Treated(t, after, batch[i], answers[i], times[i])
    {
      TreatedStill(t, before, after, batch[i], answers[i], times[i]);
    }
  }

  lemma TreatedFrom(t: Table, before: Table, after: Table, id: EventId, a: Answer, now: Time)
    requires id in t && id in before && before[id] == t[id] && Treated(before, after, id, a, now)
    ensures Treated(t, after, id, a, now)
  {
  }

  lemma TreatedStill(t: Table, before: Table, after: Table, id: EventId, a: Answer, now: Time)
    requires Treated(t, before, id, a, now) && id in after && after[id] == before[id]
    ensures Treated(t, after, id, a, now)
  {
  }

  /** What marking the first `n` rows does to the table, in terms of the answers. */
  lemma {:induction false} SettledTreats(t: Table, after: Table, batch: seq<EventId>, answers: seq<Answer>, times: seq<Time>, n: nat)
    requires n <= |batch| && n <= |answers| && n <= |times| && NoDup(batch)
    requires forall id | id in batch :: id in t
    requires after == Settled(t, batch, answers, times, n)
    ensures TreatedAll(t, after, batch, answers, times, n)
  {
    if n == 0 {
      TreatedNone(t, batch, answers, times);
    } else {
      var m := n - 1;
      var before := Settled(t, batch, answers, times, m);
      SettledTreats(t, before, batch, answers, times, m);
      assert batch[m] in batch;
      TreatedOneMore(t, before, batch, answers, times, m);
      assert after == Mark(before, batch[m], answers[m], times[m]);
    }
  }

  lemma TreatedNone(t: Table, batch: seq<EventId>, answers: seq<Answer>, times: seq<Time>)
    ensures TreatedAll(t, t, batch, answers, times, 0)
  {
  }

  /** What a claim is, in terms of the columns. */
  lemma ClaimMeans(t: Table, now: Time, limit: nat, batch: seq<EventId>)
    requires IsClaim(t, now, limit, batch)
    ensures |batch| <= limit
    ensures forall id | id in batch :: id in t && t[id].deliveredAt == None && t[id].nextAttemptAt <= now
    ensures forall i, j | 0 <= i < j < |batch| :: batch[i] != batch[j] && t[batch[i]].nextAttemptAt <= t[batch[j]].nextAttemptAt
    ensures forall id | id in t && id !in batch :: t[id].deliveredAt == None && t[id].nextAttemptAt <= now ==>
              |batch| == limit && forall b | b in batch :: t[b].nextAttemptAt <= t[id].nextAttemptAt
  {
    forall id | id in t && id !in batch && t[id].deliveredAt == None && t[id].nextAttemptAt <= now
      ensures |batch| == limit && forall b | b in batch :: t[b].nextAttemptAt <= t[id].nextAttemptAt
    {
      assert Due(t, id, now);
      forall b | b in batch
        ensures t[b].nextAttemptAt <= t[id].nextAttemptAt
      {
        assert Next(t, b) <= Next(t, id);
      }
    }
    forall i, j | 0 <= i < j < |batch|
      ensures batch[i] in t && batch[j] in t && t[batch[i]].nextAttemptAt <= t[batch[j]].nextAttemptAt
    {
      assert batch[i] in batch && batch[j] in batch;
      assert Next(t, batch[i]) <= Next(t, batch[j]);
    }
  }

  /** The answers that were 2xx. */
  function Yes(answers: seq<Answer>, n: nat): set<nat>
    requires n <= |answers|
  {
    set i: nat | i < n && answers[i].Status? && 200 <= answers[i].code < 300
  }

  lemma {:induction false} OkCountIs(answers: seq<Answer>, n: nat)
    requires n <= |answers|
    ensures OkCount(answers, n) == |Yes(answers, n)|
  {
    if n > 0 {
      OkCountIs(answers, n - 1);
      var last := if Ok(answers[n - 1]) then {n - 1} else {};
      assert Yes(answers, n) == Yes(answers, n - 1) + last && n - 1 !in Yes(answers, n - 1);
    }
  }

  class OutboxDB {
    var rows: Table

    constructor ()
      ensures rows == map[]
    {
      rows := map[];
    }

    method Enqueue(path: string, payload: string, dedup: Option<EventId>, uuid: EventId, now: Time) returns (id: EventId)
      modifies this
      ensures id == if dedup.Some? then dedup.value else uuid
      ensures rows == Insert(old(rows), id, FreshRow(path, payload, now))
      ensures id in old(rows) ==> rows == old(rows)
      ensures id !in old(rows) ==> rows == old(rows)[id := Row(path, payload, now, now, 0, None, None)]
    {
      id := if dedup.Some? then dedup.value else uuid;
      if id !in rows {
        rows := rows[id := FreshRow(path, payload, now)];
      }
    }

    /** SELECT ... WHERE due ORDER BY next_attempt_at LIMIT: repeatedly some earliest due row not taken yet. */
    method ClaimBatch(limit: nat, now: Time) returns (batch: seq<EventId>)
      ensures IsClaim(rows, now, limit, batch)
    {
      batch := [];
      var left := set id | id in rows && Due(rows, id, now);
      while left != {} && |batch| < limit
        invariant |batch| <= limit && NoDup(batch)
        invariant forall id | id in left :: Due(rows, id, now) && id !in batch
        invariant forall id | id in batch :: Due(rows, id, now)
        invariant forall id | id in rows && Due(rows, id, now) && id !in batch :: id in left
        invariant forall b, id | b in batch && id in left :: Next(rows, b) <= Next(rows, id)
        invariant forall i, j | 0 <= i < j < |batch| :: Next(rows, batch[i]) <= Next(rows, batch[j])
        decreases left
      {
        var id := Earliest(left);
        NoDupAppend(batch, [id]);
        batch, left := batch + [id], left - {id};
      }
    }

    method Earliest(ids: set<EventId>) returns (best: EventId)
      requires ids != {}
      ensures best in ids && forall id | id in ids :: Next(rows, best) <= Next(rows, id)
    {
      best :| best in ids;
      var rest := ids - {best};
      while rest != {}
        invariant best in ids && rest <= ids
        invariant forall id | id in ids - rest :: Next(rows, best) <= Next(rows, id)
        decreases rest
      {
        var id :| id in rest;
        if Next(rows, id) < Next(rows, best) {
          best := id;
        }
        rest := rest - {id};
      }
    }

    method MarkDelivered(id: EventId, now: Time)
      modifies this
      ensures rows == Delivered(old(rows), id, now)
      ensures rows == if id in old(rows) then old(rows)[id := old(rows)[id].(deliveredAt := Some(now), lastStatus := None)]
                      else old(rows)
    {
      if id in rows {
        rows := rows[id := rows[id].(deliveredAt := Some(now), lastStatus := None)];
      }
    }

    method MarkFailure(id: EventId, status: Option<int>, now: Time)
      modifies this
      ensures rows == Rescheduled(old(rows), id, now, status)
      ensures rows == if id in old(rows)
                      then old(rows)[id := old(rows)[id].(attempts := old(rows)[id].attempts + 1,
                                                          nextAttemptAt := now + Backoff(old(rows)[id].attempts + 1),
                                                          lastStatus := status)]
                      else old(rows)
    {
      var attempts := (if id in rows then rows[id].attempts else 0) + 1;
      var backoff := Backoff(attempts);
      if id in rows {
        rows := rows[id := rows[id].(attempts := attempts, nextAttemptAt := now + backoff, lastStatus := status)];
      }
    }

    method PruneDelivered(keep: Time, now: Time) returns (removed: nat)
      modifies this
      ensures rows == Pruned(old(rows), now - keep)
      ensures forall id :: id in rows <==>
                id in old(rows) && (old(rows)[id].deliveredAt.Some? ==> old(rows)[id].deliveredAt.value >= now - keep)
      ensures forall id | id in rows :: rows[id] == old(rows)[id]
      ensures removed == |old(rows)| - |rows|
    {
      var kept := Pruned(rows, now - keep);
      SubsetSize(kept.Keys, rows.Keys);
      removed := |rows.Keys| - |kept.Keys|;
      rows := kept;
    }
  }

  class OutboxPublisher {
    const outbox: OutboxDB
    const batchSize: nat

    constructor (outbox: OutboxDB, batchSize: nat)
      ensures this.outbox == outbox && this.batchSize == batchSize
    {
      this.outbox := outbox;
      this.batchSize := batchSize;
    }

    /** One drain pass: claim, then POST and mark row by row. The receiver and the clock are the two streams. */
    method DrainOnce(now: Time, answers: seq<Answer>, times: seq<Time>) returns (delivered: nat, batch: seq<EventId>)
      requires |answers| >= batchSize && |times| >= batchSize
      modifies outbox
      ensures IsClaim(old(outbox.rows), now, batchSize, batch)
      ensures outbox.rows == Settled(old(outbox.rows), batch, answers, times, |batch|)
      ensures TreatedAll(old(outbox.rows), outbox.rows, batch, answers, times, |batch|)
      ensures delivered == |set i: nat | i < |batch| && answers[i].Status? && 200 <= answers[i].code < 300|
    {
      batch := outbox.ClaimBatch(batchSize, now);
      ghost var t := outbox.rows;
      delivered := 0;
      var i := 0;
      while i < |batch|
        invariant 0 <= i <= |batch|
        invariant outbox.rows == Settled(t, batch, answers, times, i)
        invariant delivered == OkCount(answers, i)
      {
        var answer := answers[i];
        if Ok(answer) {
          outbox.MarkDelivered(batch[i], times[i]);
          delivered := delivered + 1;
        } else {
          outbox.MarkFailure(batch[i], Reported(answer), times[i]);
        }
        i := i + 1;
      }
      SettledTreats(t, outbox.rows, batch, answers, times, |batch|);
      OkCountIs(answers, |batch|);
    }
  }
}
