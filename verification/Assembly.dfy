/** Output assembly: the chunk outputs in submission order, failed chunks skipped, missing downloads noted. */
module Assembly {
  import opened Common
  import opened ChunkQueue
  import opened QueueSafety
  import opened LateCompletion

  type Line = string

  /** The chunks assembly asks for, in submission order. */
  function Kept(order: seq<ChunkId>, failed: set<ChunkId>): seq<ChunkId> {
    if order == [] then []
    else (if order[0] in failed then [] else [order[0]]) + Kept(order[1..], failed)
  }

  function Flatten(ids: seq<ChunkId>, outputs: map<ChunkId, seq<Line>>): seq<Line> {
    if ids == [] then []
    else (if ids[0] in outputs then outputs[ids[0]] else []) + Flatten(ids[1..], outputs)
  }

  lemma {:induction false} KeptSnoc(order: seq<ChunkId>, c: ChunkId, failed: set<ChunkId>)
    ensures Kept(order + [c], failed) == Kept(order, failed) + (if c in failed then [] else [c])
  {
    if order == [] {
      assert [] + [c] == [c];
    } else {
      var head := if order[0] in failed then [] else [order[0]];
      var tail := if c in failed then [] else [c];
      var rest := Kept(order[1..], failed);
      assert (order + [c])[1..] == order[1..] + [c];
      KeptSnoc(order[1..], c, failed);
      assert head + (rest + tail) == (head + rest) + tail;
    }
  }

  lemma {:induction false} FlattenSnoc(ids: seq<ChunkId>, c: ChunkId, outputs: map<ChunkId, seq<Line>>)
    ensures Flatten(ids + [c], outputs) == Flatten(ids, outputs) + (if c in outputs then outputs[c] else [])
  {
    if ids == [] {
      assert [] + [c] == [c];
    } else {
      assert (ids + [c])[1..] == ids[1..] + [c];
      FlattenSnoc(ids[1..], c, outputs);
    }
  }

  /** Appending one downloaded file, line by line. */
  method WriteLines(combined: seq<Line>, lines: seq<Line>) returns (longer: seq<Line>)
    ensures longer == combined + lines
  {
    longer := combined;
    var j := 0;
    while j < |lines|
      invariant 0 <= j <= |lines|
      invariant longer == combined + lines[..j]
    {
      longer := longer + [lines[j]];
      j := j + 1;
    }
    assert lines[..j] == lines;
  }

  /** The loop of `_assemble_output`; `outputs` holds the files whose download succeeds. */
  method AssembleOutput(order: seq<ChunkId>, failed: set<ChunkId>, outputs: map<ChunkId, seq<Line>>)
    returns (combined: seq<Line>, failures: seq<ChunkId>, expected: int)
    ensures combined == Flatten(Kept(order, failed), outputs)
    ensures failures == Kept(Kept(order, failed), outputs.Keys)
    ensures expected == |order| - |failed|
  {
    combined, failures := [], [];
    expected := |order| - |failed|;
    var i := 0;
    while i < |order|
      invariant 0 <= i <= |order|
      invariant combined == Flatten(Kept(order[..i], failed), outputs)
      invariant failures == Kept(Kept(order[..i], failed), outputs.Keys)
    {
      var cid := order[i];
      assert order[..i + 1] == order[..i] + [cid];
      ghost var kept := Kept(order[..i], failed);
      KeptSnoc(order[..i], cid, failed);
      assert kept + [] == kept && combined + [] == combined && failures + [] == failures;
      if cid !in failed {
        FlattenSnoc(kept, cid, outputs);
        KeptSnoc(kept, cid, outputs.Keys);
        if cid in outputs {
          combined := WriteLines(combined, outputs[cid]);
        } else {
          failures := failures + [cid];
        }
      }
      i := i + 1;
    }
    assert order[..i] == order;
  }

  /** `position[i]` is where the i-th kept chunk stands in the submission order. */
  lemma {:induction false} KeptInOrder(order: seq<ChunkId>, failed: set<ChunkId>) returns (position: seq<nat>)
    ensures |position| == |Kept(order, failed)|
    ensures forall i | 0 <= i < |position| :: position[i] < |order| && Kept(order, failed)[i] == order[position[i]]
    ensures forall i, j | 0 <= i < j < |position| :: position[i] < position[j]
    ensures forall c :: c in Kept(order, failed) <==> c in order && c !in failed
  {
    if order == [] {
      position := [];
    } else {
      var rest := KeptInOrder(order[1..], failed);
      var shifted := seq(|rest|, i requires 0 <= i < |rest| => rest[i] + 1);
      position := (if order[0] in failed then [] else [0]) + shifted;
      assert order == [order[0]] + order[1..];
    }
  }

  /** A subsequence of a duplicate-free order lists its elements once. */
  lemma KeptEnumerates(order: seq<ChunkId>, failed: set<ChunkId>, kept: set<ChunkId>)
    requires NoDup(order)
    requires forall c :: c in kept <==> c in order && c !in failed
    ensures Enumerates(Kept(order, failed), kept)
  {
    var position := KeptInOrder(order, failed);
    var k := Kept(order, failed);
    forall i, j | 0 <= i < j < |k|
      ensures k[i] != k[j]
    {
      assert position[i] < position[j];
    }
  }

  lemma NothingMissing(ids: seq<ChunkId>, outputs: map<ChunkId, seq<Line>>)
    ensures Kept(ids, outputs.Keys) == [] <==> forall c | c in ids :: c in outputs
  {
    var position := KeptInOrder(ids, outputs.Keys);
    assert forall c | c in ids && c !in outputs :: c in Kept(ids, outputs.Keys);
    if Kept(ids, outputs.Keys) != [] {
      assert Kept(ids, outputs.Keys)[0] in Kept(ids, outputs.Keys);
    }
  }

  /** The lines of the i-th file, none if it does not download. */
  function File(ids: seq<ChunkId>, outputs: map<ChunkId, seq<Line>>, i: nat): seq<Line>
    requires i < |ids|
  {
    if ids[i] in outputs then outputs[ids[i]] else []
  }

  /** Lines `from` up to `to` of the whole are this file. */
  predicate Holds(whole: seq<Line>, from: nat, to: nat, file: seq<Line>) {
    from <= to <= |whole| && whole[from..to] == file
  }

  /** File i begins at line `start[i]` of the whole and ends where the next one begins; the last ends with the whole. */
  predicate LaidOut(whole: seq<Line>, ids: seq<ChunkId>, outputs: map<ChunkId, seq<Line>>, start: seq<nat>) {
    && |start| == |ids| + 1 && start[0] == 0 && start[|ids|] == |whole|
    && forall i | 0 <= i < |ids| :: Holds(whole, start[i], start[i + 1], File(ids, outputs, i))
  }

  lemma HoldsLater(head: seq<Line>, whole: seq<Line>, from: nat, to: nat, file: seq<Line>)
    requires Holds(whole, from, to, file)
    ensures Holds(head + whole, |head| + from, |head| + to, file)
  {
    assert (head + whole)[|head| + from..|head| + to] == whole[from..to];
  }

  function Shifted(rest: seq<nat>, n: nat): seq<nat> {
    [0] + seq(|rest|, i requires 0 <= i < |rest| => n + rest[i])
  }

  lemma ShiftedAt(rest: seq<nat>, n: nat, i: nat)
    requires i < |rest|
    ensures |Shifted(rest, n)| == |rest| + 1 && Shifted(rest, n)[0] == 0
    ensures Shifted(rest, n)[i + 1] == n + rest[i]
  {
  }

  lemma FirstFile(file: seq<Line>, tail: seq<Line>)
    ensures Holds(file + tail, 0, |file|, file)
  {
    assert (file + tail)[0..|file|] == file;
  }

  lemma OneFileMore(tail: seq<Line>, ids: seq<ChunkId>, outputs: map<ChunkId, seq<Line>>, rest: seq<nat>, k: nat)
    requires ids != [] && LaidOut(tail, ids[1..], outputs, rest) && k + 1 < |ids|
    ensures var file := File(ids, outputs, 0);
            Holds(file + tail, |file| + rest[k], |file| + rest[k + 1], File(ids, outputs, k + 1))
  {
    assert Holds(tail, rest[k], rest[k + 1], File(ids[1..], outputs, k));
    HoldsLater(File(ids, outputs, 0), tail, rest[k], rest[k + 1], File(ids, outputs, k + 1));
  }

  /** The whole is the files one after the other. */
  lemma {:induction false} FlattenMeans(ids: seq<ChunkId>, outputs: map<ChunkId, seq<Line>>) returns (start: seq<nat>)
    ensures LaidOut(Flatten(ids, outputs), ids, outputs, start)
  {
    if ids == [] {
      start := [0];
    } else {
      var rest := FlattenMeans(ids[1..], outputs);
      var file, tail := File(ids, outputs, 0), Flatten(ids[1..], outputs);
      start := Shifted(rest, |file|);
      assert Flatten(ids, outputs) == file + tail;
      forall i | 0 <= i < |ids|
        ensures Holds(file + tail, start[i], start[i + 1], File(ids, outputs, i))
      {
        ShiftedAt(rest, |file|, i);
        if i == 0 {
          FirstFile(file, tail);
        } else {
          ShiftedAt(rest, |file|, i - 1);
          OneFileMore(tail, ids, outputs, rest, i - 1);
        }
      }
    }
  }

  /** With exact accounts, at `all_done` assembly asks for each completed chunk once, in submission order, and for
      nothing else; it expects as many chunks as completed; and it misses none if and only if every completed
      chunk's output downloads. */
  lemma AssemblyIsExact(cfg: Config, q: Queue, outputs: map<ChunkId, seq<Line>>) returns (position: seq<nat>)
    requires Safe(cfg, q) && Exact(q) && AllDone(q)
    ensures Enumerates(Kept(q.order, q.failed), q.completed)
    ensures |position| == |Kept(q.order, q.failed)| == |q.completed|
    ensures forall i | 0 <= i < |position| :: position[i] < Total(q) && Kept(q.order, q.failed)[i] == q.order[position[i]]
    ensures forall i, j | 0 <= i < j < |position| :: position[i] < position[j]
    ensures Total(q) - |q.failed| == |q.completed|
    ensures Kept(Kept(q.order, q.failed), outputs.Keys) == [] <==> forall c | c in q.completed :: c in outputs
  {
    ExactProgress(cfg, q);
    KeptEnumerates(q.order, q.failed, q.completed);
    EnumeratesSize(Kept(q.order, q.failed), q.completed);
    NothingMissing(Kept(q.order, q.failed), outputs);
    position := KeptInOrder(q.order, q.failed);
  }

  /** Without exact accounts the late completion ends with `all_done`, and assembly asks for the chunk still
      being processed instead of the one completed. */
  lemma AssemblyAfterLateCompletion()
    ensures AllDone(Q6()) && 0 in Q6().completed && 1 !in Q6().completed
    ensures Kept(Q6().order, Q6().failed) == [1]
  {
    DoneTooEarly();
    assert [0, 1][1..] == [1];
    assert Kept([1], {0}) == [1];
  }
}
