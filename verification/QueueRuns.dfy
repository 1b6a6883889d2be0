/** Runs of the chunk queue: sequences of events from any replicas, reclaim loops, watchdogs and kills,
    in any interleaving. */
module QueueRuns {
  import opened Common
  import opened ChunkQueue
  import opened QueueSafety

  predicate Legal(cfg: Config, q: Queue, es: seq<Event>)
    requires WellFormed(q)
    decreases |es|
  {
    es == [] ||
    (Enabled(cfg, q, es[0]) &&
     (NextWellFormed(cfg, q, es[0]); Legal(cfg, Next(cfg, q, es[0]), es[1..])))
  }

  function After(cfg: Config, q: Queue, es: seq<Event>): Queue
    requires WellFormed(q) && Legal(cfg, q, es)
    decreases |es|
  {
    if es == [] then q
    else NextWellFormed(cfg, q, es[0]); After(cfg, Next(cfg, q, es[0]), es[1..])
  }

  /** The chunks handed out along a run, in order. */
  function HandedOut(cfg: Config, q: Queue, es: seq<Event>): seq<ChunkId>
    requires WellFormed(q) && Legal(cfg, q, es)
    decreases |es|
  {
    if es == [] then []
    else
      NextWellFormed(cfg, q, es[0]);
      var rest := HandedOut(cfg, Next(cfg, q, es[0]), es[1..]);
      match Handed(cfg, q, es[0])
      case Some(c) => [c] + rest
      case None => rest
  }

  /** `Safe` holds in every reachable state. */
  lemma {:induction false} SafeRun(cfg: Config, q: Queue, es: seq<Event>)
    requires Safe(cfg, q) && WellFormed(q) && Legal(cfg, q, es)
    ensures Safe(cfg, After(cfg, q, es))
    decreases |es|
  {
    if es != [] {
      SafeNext(cfg, q, es[0]);
      SafeRun(cfg, Next(cfg, q, es[0]), es[1..]);
    }
  }

  predicate Step(cfg: Config, q: Queue, e: Event, q': Queue) {
    WellFormed(q) && Enabled(cfg, q, e) && q' == Next(cfg, q, e)
  }

  predicate StepAt(cfg: Config, qs: seq<Queue>, es: seq<Event>, i: nat)
    requires i < |es| < |qs|
  {
    Step(cfg, qs[i], es[i], qs[i + 1])
  }

  /** The same run with every intermediate queue named. */
  predicate Trace(cfg: Config, qs: seq<Queue>, es: seq<Event>) {
    |qs| == |es| + 1 && forall i | 0 <= i < |es| :: StepAt(cfg, qs, es, i)
  }

  lemma TraceTail(cfg: Config, qs: seq<Queue>, es: seq<Event>)
    requires Trace(cfg, qs, es) && es != []
    ensures Trace(cfg, qs[1..], es[1..])
  {
    var rest, later := qs[1..], es[1..];
    forall i | 0 <= i < |later|
      ensures StepAt(cfg, rest, later, i)
    {
      assert StepAt(cfg, qs, es, i + 1);
      assert rest[i] == qs[i + 1] && rest[i + 1] == qs[i + 2] && later[i] == es[i + 1];
    }
  }

  lemma TraceHead(cfg: Config, qs: seq<Queue>, es: seq<Event>)
    requires Trace(cfg, qs, es) && es != []
    ensures Step(cfg, qs[0], es[0], qs[1]) && WellFormed(qs[1])
  {
    assert StepAt(cfg, qs, es, 0);
    NextWellFormed(cfg, qs[0], es[0]);
  }

  lemma RunStep(cfg: Config, q: Queue, q': Queue, es: seq<Event>)
    requires es != [] && Step(cfg, q, es[0], q') && WellFormed(q') && Legal(cfg, q', es[1..])
    ensures Legal(cfg, q, es) && After(cfg, q, es) == After(cfg, q', es[1..])
  {
  }

  /** Traces and runs are the same thing. */
  lemma {:induction false} TraceIsRun(cfg: Config, qs: seq<Queue>, es: seq<Event>)
    requires Trace(cfg, qs, es) && WellFormed(qs[0])
    ensures Legal(cfg, qs[0], es) && After(cfg, qs[0], es) == qs[|es|]
    decreases |es|
  {
    if es != [] {
      TraceHead(cfg, qs, es);
      TraceTail(cfg, qs, es);
      TraceIsRun(cfg, qs[1..], es[1..]);
      RunStep(cfg, qs[0], qs[1], es);
    }
  }

  lemma {:induction false} SafeTrace(cfg: Config, qs: seq<Queue>, es: seq<Event>, j: nat)
    requires Trace(cfg, qs, es) && Safe(cfg, qs[0]) && j <= |es|
    ensures Safe(cfg, qs[j]) && WellFormed(qs[j])
  {
    if j > 0 {
      SafeTrace(cfg, qs, es, j - 1);
      assert StepAt(cfg, qs, es, j - 1);
      SafeNext(cfg, qs[j - 1], es[j - 1]);
    }
  }

  /** Once a run has reported `all_done` it is never taken back. */
  lemma {:induction false} AllDoneStable(cfg: Config, q: Queue, es: seq<Event>)
    requires WellFormed(q) && Legal(cfg, q, es) && AllDone(q)
    ensures AllDone(After(cfg, q, es))
    decreases |es|
  {
    if es != [] {
      DoneCountGrows(cfg, q, es[0]);
      NextWellFormed(cfg, q, es[0]);
      AllDoneStable(cfg, Next(cfg, q, es[0]), es[1..]);
    }
  }

  // ------------------------------------------------------------ exact accounting

  /** No completion along the run finds its chunk waiting in pending (or unknown to the job). */
  predicate TidyRun(cfg: Config, q: Queue, es: seq<Event>)
    requires WellFormed(q) && Legal(cfg, q, es)
    decreases |es|
  {
    es == [] ||
    (Tidy(q, es[0]) && (NextWellFormed(cfg, q, es[0]); TidyRun(cfg, Next(cfg, q, es[0]), es[1..])))
  }

  ghost predicate ExactThroughout(cfg: Config, q: Queue, es: seq<Event>)
    requires WellFormed(q) && Legal(cfg, q, es)
    decreases |es|
  {
    Exact(q) &&
    (es == [] || (NextWellFormed(cfg, q, es[0]); ExactThroughout(cfg, Next(cfg, q, es[0]), es[1..])))
  }

  /** The containers partition the job at every point of a run if and only if the run is tidy. */
  lemma {:induction false} ExactRun(cfg: Config, q: Queue, es: seq<Event>)
    requires Safe(cfg, q) && Exact(q) && WellFormed(q) && Legal(cfg, q, es)
    ensures ExactThroughout(cfg, q, es) <==> TidyRun(cfg, q, es)
    decreases |es|
  {
    if es != [] {
      var q' := Next(cfg, q, es[0]);
      NextWellFormed(cfg, q, es[0]);
      ExactNext(cfg, q, es[0]);
      SafeNext(cfg, q, es[0]);
      if Tidy(q, es[0]) {
        ExactRun(cfg, q', es[1..]);
      } else {
        assert !Exact(q');
      }
    }
  }

  lemma {:induction false} ExactAtEnd(cfg: Config, q: Queue, es: seq<Event>)
    requires WellFormed(q) && Legal(cfg, q, es) && ExactThroughout(cfg, q, es)
    ensures Exact(After(cfg, q, es))
    decreases |es|
  {
    if es != [] {
      NextWellFormed(cfg, q, es[0]);
      ExactAtEnd(cfg, Next(cfg, q, es[0]), es[1..]);
    }
  }

  /** From a fresh queue, after any tidy run, progress is exact. */
  lemma ExactAccounting(cfg: Config, order: seq<ChunkId>, es: seq<Event>)
    requires NoDup(order) && cfg.maxRetries >= 1
    requires WellFormed(Create(order)) && Legal(cfg, Create(order), es)
    requires TidyRun(cfg, Create(order), es)
    ensures var q := After(cfg, Create(order), es);
            && |q.pending| + |q.inflight| + |q.completed| + |q.failed| == |order|
            && Elems(order) == Elems(q.pending) + q.inflight + q.completed + q.failed
            && (AllDone(q) <==> order != [] && q.pending == [] && q.inflight == {})
  {
    var q0 := Create(order);
    CreateSafe(cfg, order);
    ExactRun(cfg, q0, es);
    ExactAtEnd(cfg, q0, es);
    SafeRun(cfg, q0, es);
    OrderFixed(cfg, q0, es);
    ExactProgress(cfg, After(cfg, q0, es));
  }

  lemma {:induction false} OrderFixed(cfg: Config, q: Queue, es: seq<Event>)
    requires WellFormed(q) && Legal(cfg, q, es)
    ensures After(cfg, q, es).order == q.order
    decreases |es|
  {
    if es != [] {
      NextWellFormed(cfg, q, es[0]);
      OrderFixed(cfg, Next(cfg, q, es[0]), es[1..]);
    }
  }

  // ------------------------------------------------------------------- fairness

  /** The chunk is among the first `k` of the submission order. */
  predicate Early(order: seq<ChunkId>, k: nat, c: ChunkId)
    requires k <= |order|
  {
    exists j :: 0 <= j < k && order[j] == c
  }

  /** Pending is the part of the submission order from `k` on, never handed out yet, followed by chunks
      that were handed out before; everything inflight was handed out before. */
  predicate FreshFrom(q: Queue, k: nat) {
    && k <= |q.order| && |q.order| - k <= |q.pending|
    && (forall i | 0 <= i < |q.order| - k :: q.pending[i] == q.order[k + i])
    && (forall i | |q.order| - k <= i < |q.pending| :: Early(q.order, k, q.pending[i]))
    && (forall c | c in q.inflight :: Early(q.order, k, c))
  }

  lemma FreshReclaim(cfg: Config, q: Queue, k: nat, selected: set<ChunkId>, back: seq<ChunkId>)
    requires WellFormed(q) && FreshFrom(q, k) && selected <= q.inflight
    requires Enumerates(back, Requeued(cfg, q, selected))
    ensures FreshFrom(AfterReclaim(cfg, q, selected, back), k)
  {
    var q' := AfterReclaim(cfg, q, selected, back);
    forall i | |q.order| - k <= i < |q'.pending|
      ensures Early(q.order, k, q'.pending[i])
    {
      if i >= |q.pending| {
        assert q'.pending[i] in back;
      }
    }
  }

  /** A hand-out is the next chunk of the submission order until there is none; repeats come after. */
  lemma FreshTake(cfg: Config, q: Queue, k: nat, r: ReplicaId, at: Time)
    requires WellFormed(q) && FreshFrom(q, k) && q.pending != []
    ensures if k < |q.order| then q.pending[0] == q.order[k] && FreshFrom(Take(cfg, q, r, at), k + 1)
            else FreshFrom(Take(cfg, q, r, at), k)
  {
    var q', k' := Take(cfg, q, r, at), if k < |q.order| then k + 1 else k;
    assert forall i | 0 <= i < |q'.pending| :: q'.pending[i] == q.pending[i + 1];
    forall c | Early(q.order, k, c) || c == q.pending[0]
      ensures Early(q.order, k', c)
    {
      assert k < |q.order| ==> q.order[k] == q.pending[0];
    }
  }

  lemma FreshNext(cfg: Config, q: Queue, k: nat, e: Event) returns (k': nat)
    requires WellFormed(q) && Enabled(cfg, q, e) && FreshFrom(q, k)
    ensures FreshFrom(Next(cfg, q, e), k') && Next(cfg, q, e).order == q.order
    ensures if Handed(cfg, q, e).Some? && k < |q.order|
            then k' == k + 1 && Handed(cfg, q, e).value == q.order[k] else k' == k
  {
    k' := k;
    if e.Complete? || e.Renew? {
      NextPlain(cfg, q, e);
    } else {
      var swept := Swept(cfg, q, e);
      SweptWellFormed(cfg, q, e);
      FreshReclaim(cfg, q, k, Selected(q, e), Back(e));
      if e.Pull? && swept.pending != [] {
        FreshTake(cfg, swept, k, e.replica, e.at);
        k' := if k < |q.order| then k + 1 else k;
      }
    }
  }

  /** One sequence continues along the other. */
  predicate InOrder(h: seq<ChunkId>, order: seq<ChunkId>) {
    h <= order || order <= h
  }

  lemma InOrderStep(order: seq<ChunkId>, k: nat, got: Option<ChunkId>, rest: seq<ChunkId>)
    requires k <= |order|
    requires got.Some? && k < |order| ==> got.value == order[k]
    requires InOrder(order[..Min(k + |Listed(got)|, |order|)] + rest, order)
    ensures InOrder(order[..k] + (Listed(got) + rest), order)
  {
    var all := order[..k] + (Listed(got) + rest);
    if k == |order| {
      assert order[..k] == order;
      assert order <= all;
    } else if got.Some? {
      assert order[..k + 1] == order[..k] + [got.value];
      assert all == order[..k + 1] + rest;
    } else {
      assert all == order[..k] + rest;
    }
  }

  function Min(a: nat, b: nat): nat { if a <= b then a else b }

  function Listed(got: Option<ChunkId>): seq<ChunkId> {
    if got.Some? then [got.value] else []
  }

  /** After `h` hand-outs from a queue that is fresh from `k`, it is fresh from `k + h`, or nothing is fresh any more;
      and what was handed out continues the submission order from `k`, or goes on after its end. */
  lemma {:induction false} FreshRun(cfg: Config, q: Queue, k: nat, es: seq<Event>, end: Queue, handed: seq<ChunkId>)
    returns (last: nat)
    requires WellFormed(q) && Legal(cfg, q, es) && FreshFrom(q, k)
    requires end == After(cfg, q, es) && handed == HandedOut(cfg, q, es)
    ensures FreshFrom(end, last) && last == Min(k + |handed|, |q.order|)
    ensures InOrder(q.order[..k] + handed, q.order)
    decreases |es|
  {
    if es == [] {
      last := k;
      assert q.order[..k] + [] == q.order[..k];
    } else {
      var q', k', got, rest := FreshStep(cfg, q, k, es);
      last := FreshRun(cfg, q', k', es[1..], end, rest);
      MinStep(k, |Listed(got)|, |rest|, |q.order|);
      InOrderStep(q.order, k, got, rest);
    }
  }

  lemma MinStep(k: nat, got: nat, rest: nat, n: nat)
    ensures Min(Min(k + got, n) + rest, n) == Min(k + (got + rest), n)
  {
  }

  lemma FreshStep(cfg: Config, q: Queue, k: nat, es: seq<Event>)
    returns (q': Queue, k': nat, got: Option<ChunkId>, rest: seq<ChunkId>)
    requires WellFormed(q) && es != [] && Legal(cfg, q, es) && FreshFrom(q, k)
    ensures WellFormed(q') && Legal(cfg, q', es[1..]) && q'.order == q.order
    ensures After(cfg, q, es) == After(cfg, q', es[1..])
    ensures rest == HandedOut(cfg, q', es[1..]) && HandedOut(cfg, q, es) == Listed(got) + rest
    ensures got.Some? && k < |q.order| ==> got.value == q.order[k]
    ensures FreshFrom(q', k') && k' == Min(k + |Listed(got)|, |q.order|)
  {
    AfterStep(cfg, q, es);
    q' := Next(cfg, q, es[0]);
    got, rest := Handed(cfg, q, es[0]), HandedOut(cfg, q', es[1..]);
    HandedOutStep(cfg, q, q', es);
    k' := FreshNext(cfg, q, k, es[0]);
  }

  lemma AfterStep(cfg: Config, q: Queue, es: seq<Event>)
    requires WellFormed(q) && es != [] && Legal(cfg, q, es)
    ensures WellFormed(Next(cfg, q, es[0])) && Legal(cfg, Next(cfg, q, es[0]), es[1..])
    ensures After(cfg, q, es) == After(cfg, Next(cfg, q, es[0]), es[1..])
  {
    NextWellFormed(cfg, q, es[0]);
  }

  lemma HandedOutStep(cfg: Config, q: Queue, q': Queue, es: seq<Event>)
    requires WellFormed(q) && es != [] && Legal(cfg, q, es) && Step(cfg, q, es[0], q')
    requires WellFormed(q') && Legal(cfg, q', es[1..])
    ensures var got := Handed(cfg, q, es[0]);
            HandedOut(cfg, q, es) == Listed(got) + HandedOut(cfg, q', es[1..])
  {
  }

  /** First hand-outs follow the submission order, and no chunk gets a second attempt before every chunk has had its
      first: what a run hands out is a prefix of the submission order, or starts with all of it. And after `h`
      hand-outs, pending is the submission order from `h` on, followed by chunks handed out before and nothing else. */
  lemma Fairness(cfg: Config, order: seq<ChunkId>, es: seq<Event>)
    requires WellFormed(Create(order)) && Legal(cfg, Create(order), es)
    ensures InOrder(HandedOut(cfg, Create(order), es), order)
    ensures FreshFrom(After(cfg, Create(order), es), Min(|HandedOut(cfg, Create(order), es)|, |order|))
  {
    var q := Create(order);
    FreshAtStart(order);
    var handed := HandedOut(cfg, q, es);
    assert order[..0] + handed == handed;
    var last := FreshRun(cfg, q, 0, es, After(cfg, q, es), handed);
  }

  lemma FreshAtStart(order: seq<ChunkId>)
    ensures FreshFrom(Create(order), 0)
  {
  }
}
