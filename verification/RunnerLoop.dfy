/** The runner's two loops: the renewal thread of one chunk, and the chunk loop that decides what to report. What the
    server, the storage and the clock answer is given as a stream. */
module RunnerLoop {
  import opened Common
  import opened ChunkQueue

  // ----------------------------------------------------------- the renewal thread

  /** One iteration's luck: told to stop while waiting, or the answer to the renewal request. */
  datatype Renewal = StopSet | Renewed | RefusedRenewal | Unclear

  predicate Ends(a: Renewal) {
    a == StopSet || a == RefusedRenewal
  }

  /** A renewal comes back refused before the thread is told to stop; errors and unclear answers do not count. */
  predicate Stolen(answers: seq<Renewal>) {
    exists i :: 0 <= i < |answers| && answers[i] == RefusedRenewal && forall j | 0 <= j < i :: !Ends(answers[j])
  }

  /** The flag of a thread that got these answers, and how many requests it sent. */
  method RenewLeaseLoop(answers: seq<Renewal>) returns (stolen: bool, sent: nat)
    ensures sent <= |answers|
    ensures stolen <==> Stolen(answers)
    ensures stolen <==> exists i :: 0 <= i < |answers| && answers[i] == RefusedRenewal
                                    && forall j | 0 <= j < i :: answers[j] != StopSet && answers[j] != RefusedRenewal
    ensures forall j | 0 <= j < sent && j < |answers| :: answers[j] != StopSet
    ensures sent < |answers| ==> answers[sent] == StopSet || (sent > 0 && answers[sent - 1] == RefusedRenewal)
  {
    stolen, sent := false, 0;
    while sent < |answers| && !stolen
      invariant 0 <= sent <= |answers|
      invariant if stolen then sent > 0 && answers[sent - 1] == RefusedRenewal && forall j | 0 <= j < sent - 1 :: !Ends(answers[j])
                else forall j | 0 <= j < sent :: !Ends(answers[j])
    {
      if answers[sent] == StopSet {
        break;
      }
      if answers[sent] == RefusedRenewal {
        stolen := true;
      }
      sent := sent + 1;
    }
  }

  /** Once set, the flag stays set. */
  lemma StolenStays(early: seq<Renewal>, late: seq<Renewal>)
    requires Stolen(early)
    ensures Stolen(early + late)
  {
    var i :| 0 <= i < |early| && early[i] == RefusedRenewal && forall j | 0 <= j < i :: !Ends(early[j]);
    var all := early + late;
    assert all[i] == RefusedRenewal && forall j | 0 <= j < i :: all[j] == early[j];
  }

  /** For a thread told to stop only at the end, the flag is set if and only if some renewal was refused. */
  lemma StolenUntilStopped(answers: seq<Renewal>)
    requires StopSet !in answers
    ensures Stolen(answers + [StopSet]) <==> RefusedRenewal in answers
  {
    var all := answers + [StopSet];
    if RefusedRenewal in answers {
      var i := FirstRefused(answers);
      assert all[i] == RefusedRenewal && forall j | 0 <= j < i :: all[j] == answers[j] && answers[j] in answers;
    }
  }

  lemma {:induction false} FirstRefused(answers: seq<Renewal>) returns (i: nat)
    requires RefusedRenewal in answers
    ensures i < |answers| && answers[i] == RefusedRenewal && forall j | 0 <= j < i :: answers[j] != RefusedRenewal
  {
    if answers[0] == RefusedRenewal {
      i := 0;
    } else {
      var k := FirstRefused(answers[1..]);
      i := k + 1;
      assert forall j | 1 <= j < i :: answers[j] == answers[1..][j - 1];
    }
  }

  // ---------------------------------------------------------------- the chunk loop

  /** What an empty queue is followed by: the job's progress, whether all three idle checks find vLLM idle, the time it
      is then signalled at, and the time the limit is checked at. */
  datatype Poll = Poll(allDone: bool, inflight: int, idle: bool, signalAt: Time, now: Time)

  /** One turn: the queue is empty, the server cannot be reached, or a chunk came, with the answers its renewal thread
      got before the loop took it over and until the loop is done with it, whether there was anything to process, and
      whether the output was uploaded. */
  datatype Turn =
    | Empty(poll: Poll)
    | Unreachable
    | Got(chunk: ChunkId, early: seq<Renewal>, late: seq<Renewal>, downloaded: bool, uploaded: bool)

  const MAX_CONSECUTIVE_ERRORS := 10
  const IDLE_LIMIT := 60.0

  /** A chunk is reported only with its flag unset when the loop is done with it, and only if its output was uploaded,
      or there was nothing to process because its input did not download. */
  predicate Reports(t: Turn) {
    t.Got? && !Stolen(t.early + t.late) && (t.downloaded ==> t.uploaded)
  }

  function Reported(turns: seq<Turn>): seq<ChunkId> {
    if turns == [] then []
    else Reported(turns[..|turns| - 1]) + (if Reports(turns[|turns| - 1]) then [turns[|turns| - 1].chunk] else [])
  }

  /** The transient errors since the last chunk; an empty queue does not interrupt the count. */
  function ErrorStreak(turns: seq<Turn>): nat {
    if turns == [] then 0
    else match turns[|turns| - 1]
      case Got(_, _, _, _, _) => 0
      case Unreachable => ErrorStreak(turns[..|turns| - 1]) + 1
      case Empty(_) => ErrorStreak(turns[..|turns| - 1])
  }

  predicate OthersBusy(p: Poll) {
    !p.allDone && p.inflight > 0
  }

  /** Since when the replica has been signalled idle; a chunk ends that. */
  function IdleSince(turns: seq<Turn>): Option<Time> {
    if turns == [] then None
    else
      var before := IdleSince(turns[..|turns| - 1]);
      match turns[|turns| - 1]
      case Got(_, _, _, _, _) => None
      case Unreachable => before
      case Empty(p) => if OthersBusy(p) && before == None && p.idle then Some(p.signalAt) else before
  }

  predicate TimedOut(since: Option<Time>, now: Time) {
    since.Some? && since.value != 0.0 && now - since.value > IDLE_LIMIT
  }

  /** The last of these turns makes the loop leave. */
  predicate Leaves(turns: seq<Turn>) {
    turns != [] &&
    match turns[|turns| - 1]
    case Got(_, _, _, _, _) => false
    case Unreachable => ErrorStreak(turns) >= MAX_CONSECUTIVE_ERRORS
    case Empty(p) => !OthersBusy(p) || TimedOut(IdleSince(turns), p.now)
  }

  /** The loop reports what `Reports` allows among the turns it takes, and stops at the first turn that leaves. */
  method ChunkLoop(turns: seq<Turn>) returns (reported: seq<ChunkId>, taken: nat)
    ensures taken <= |turns| && reported == Reported(turns[..taken])
    ensures forall n: nat | n < taken :: !Leaves(turns[..n])
    ensures taken < |turns| ==> Leaves(turns[..taken])
  {
    reported, taken := [], 0;
    var consecutiveErrors := 0;
    var signaledIdle, idleSince := false, None;
    var running := true;
    while running && taken < |turns|
      invariant 0 <= taken <= |turns|
      invariant reported == Reported(turns[..taken])
      invariant consecutiveErrors == ErrorStreak(turns[..taken])
      invariant idleSince == IdleSince(turns[..taken]) && signaledIdle == idleSince.Some?
      invariant forall n: nat | n < taken :: !Leaves(turns[..n])
      invariant running <==> !Leaves(turns[..taken])
    {
      ghost var n := taken + 1;
      assert turns[..n][..n - 1] == turns[..taken] && turns[..n][n - 1] == turns[taken];
      match turns[taken] {
        case Empty(p) =>
          if p.allDone {
            running := false;
          } else if p.inflight > 0 {
            if p.idle && !signaledIdle {
              signaledIdle, idleSince := true, Some(p.signalAt);
            }
            if idleSince.Some? && idleSince.value != 0.0 && p.now - idleSince.value > IDLE_LIMIT {
              running := false;
            }
          } else {
            running := false;
          }
        case Unreachable =>
          consecutiveErrors := consecutiveErrors + 1;
          if consecutiveErrors >= MAX_CONSECUTIVE_ERRORS {
            running := false;
          }
        case Got(cid, early, late, downloaded, uploaded) =>
          consecutiveErrors := 0;
          if signaledIdle {
            signaledIdle, idleSince := false, None;
          }
          var report := HandleChunk(early, late, downloaded, uploaded);
          if report {
            reported := reported + [cid];
          }
      }
      taken := taken + 1;
    }
  }

  /** The loop's decision for one chunk: the flag is read when it is taken over and again at the end. */
  method HandleChunk(early: seq<Renewal>, late: seq<Renewal>, downloaded: bool, uploaded: bool) returns (report: bool)
    ensures report <==> !Stolen(early + late) && (downloaded ==> uploaded)
  {
    var stolen, sent := RenewLeaseLoop(early);
    if stolen {
      StolenStays(early, late);
      return false;
    }
    stolen, sent := RenewLeaseLoop(early + late);
    if !downloaded {
      return !stolen;
    }
    if stolen {
      return false;
    }
    return uploaded;
  }

  // ------------------------------------------------------------ what the loop means

  /** No chunk among the turns from `i` on. */
  predicate NoChunk(turns: seq<Turn>, i: nat) {
    forall j | i <= j < |turns| :: !turns[j].Got?
  }

  function Errors(turns: seq<Turn>, i: nat): set<nat> {
    set j: nat | i <= j < |turns| && turns[j].Unreachable?
  }

  lemma ErrorsStep(turns: seq<Turn>, i: nat)
    requires turns != [] && i < |turns|
    ensures var last := |turns| - 1;
            |Errors(turns, i)| == |Errors(turns[..last], i)| + if turns[last].Unreachable? then 1 else 0
  {
    var last := |turns| - 1;
    var before := turns[..last];
    var one: set<nat> := if turns[last].Unreachable? then {last} else {};
    forall j: nat
      ensures j in Errors(turns, i) <==> j in Errors(before, i) + one
    {
      if j < last {
        assert before[j] == turns[j];
      }
    }
    assert Errors(turns, i) == Errors(before, i) + one && last !in Errors(before, i);
  }

  /** The streak is the number of errors in the longest stretch without a chunk up to now. */
  lemma {:induction false} StreakIs(turns: seq<Turn>) returns (i: nat)
    ensures i <= |turns| && NoChunk(turns, i) && (i > 0 ==> turns[i - 1].Got?)
    ensures ErrorStreak(turns) == |Errors(turns, i)|
  {
    var n := |turns|;
    if n == 0 || turns[n - 1].Got? {
      i := n;
      assert Errors(turns, i) == {};
    } else {
      i := StreakIs(turns[..n - 1]);
      ErrorsStep(turns, i);
    }
  }

  /** In any stretch without a chunk up to now there are at most as many errors as in the streak. */
  lemma StreakCovers(turns: seq<Turn>, i: nat)
    requires i <= |turns| && NoChunk(turns, i)
    ensures |Errors(turns, i)| <= ErrorStreak(turns)
  {
    var k := StreakIs(turns);
    assert k <= i;
    SubsetSize(Errors(turns, i), Errors(turns, k));
  }

  /** A poll that signals idle: the queue empty, others busy, vLLM idle. */
  predicate Signals(t: Turn) {
    t.Empty? && !t.poll.allDone && t.poll.inflight > 0 && t.poll.idle
  }

  /** Turn `i` is the first to signal idle since the last chunk, and no chunk came after it. */
  predicate FirstSignal(turns: seq<Turn>, i: nat) {
    && i < |turns| && Signals(turns[i]) && NoChunk(turns, i)
    && forall k | 0 <= k < i && Signals(turns[k]) :: exists j :: k < j < i && turns[j].Got?
  }

  lemma SignalStays(turns: seq<Turn>, t: Turn, i: nat)
    requires FirstSignal(turns, i) && !t.Got?
    ensures FirstSignal(turns + [t], i)
  {
    var all := turns + [t];
    forall k | 0 <= k < i && Signals(all[k])
      ensures exists j :: k < j < i && all[j].Got?
    {
      assert Signals(turns[k]);
      var j :| k < j < i && turns[j].Got?;
      assert all[j].Got?;
    }
  }

  /** Nothing has signalled idle since the last chunk. */
  predicate Unsignalled(turns: seq<Turn>) {
    forall k | 0 <= k < |turns| && Signals(turns[k]) :: exists j :: k < j < |turns| && turns[j].Got?
  }

  lemma UnsignalledStays(turns: seq<Turn>, t: Turn)
    requires t.Got? || (Unsignalled(turns) && !Signals(t))
    ensures Unsignalled(turns + [t])
  {
    var all := turns + [t];
    forall k | 0 <= k < |all| && Signals(all[k])
      ensures exists j :: k < j < |all| && all[j].Got?
    {
      if t.Got? {
        assert all[|turns|].Got?;
      } else {
        assert Signals(turns[k]);
        var j :| k < j < |turns| && turns[j].Got?;
        assert all[j].Got?;
      }
    }
  }

  /** A replica is idle since the first signal after its last chunk, or not idle if there is none. */
  lemma {:induction false} IdleMeans(turns: seq<Turn>) returns (i: nat)
    ensures IdleSince(turns).None? ==> Unsignalled(turns)
    ensures IdleSince(turns).Some? ==> FirstSignal(turns, i) && turns[i].poll.signalAt == IdleSince(turns).value
  {
    i := 0;
    if turns != [] {
      var m := |turns| - 1;
      var before, t := turns[..m], turns[m];
      assert turns == before + [t];
      i := IdleMeans(before);
      if t.Got? || (IdleSince(before).None? && !Signals(t)) {
        UnsignalledStays(before, t);
      } else if IdleSince(before).Some? {
        SignalStays(before, t, i);
      } else {
        i := m;
      }
    }
  }

  lemma SignalUnique(turns: seq<Turn>, i: nat, j: nat)
    requires FirstSignal(turns, i) && FirstSignal(turns, j)
    ensures i == j
  {
  }

  lemma UnsignalledNone(turns: seq<Turn>, i: nat)
    requires Unsignalled(turns) && i < |turns| && NoChunk(turns, i)
    ensures !Signals(turns[i])
  {
  }

  /** The loop leaves at a turn if and only if the queue is empty and the job is done or nothing is inflight; or the
      queue is empty, others are busy, and the first idle signal since the last chunk was over 60 s ago (the time 0
      counts as no signal); or it is the tenth error, or a later one, in a stretch without a chunk. */
  lemma LeavesExactly(turns: seq<Turn>)
    requires turns != []
    ensures var last := turns[|turns| - 1];
            Leaves(turns) <==>
            || (last.Empty? && (last.poll.allDone || last.poll.inflight <= 0))
            || (last.Empty? && exists i :: 0 <= i < |turns| && FirstSignal(turns, i) && turns[i].poll.signalAt != 0.0
                                           && last.poll.now - turns[i].poll.signalAt > 60.0)
            || (last.Unreachable? && exists i :: 0 <= i < |turns| && NoChunk(turns, i) && |Errors(turns, i)| >= 10)
  {
    var last := turns[|turns| - 1];
    if last.Unreachable? {
      var i := StreakIs(turns);
      if Leaves(turns) {
        assert i < |turns| && NoChunk(turns, i) && |Errors(turns, i)| >= 10;
      }
      if k :| 0 <= k < |turns| && NoChunk(turns, k) && |Errors(turns, k)| >= 10 {
        StreakCovers(turns, k);
      }
    } else if last.Empty? {
      var i := IdleMeans(turns);
      if IdleSince(turns).None? {
        forall k | 0 <= k < |turns| && NoChunk(turns, k)
          ensures !FirstSignal(turns, k)
        {
          UnsignalledNone(turns, k);
        }
      } else {
        forall k | 0 <= k < |turns| && FirstSignal(turns, k)
          ensures k == i
        {
          SignalUnique(turns, i, k);
        }
      }
    }
  }

  /** A chunk is reported if and only if some turn brought it with its flag unset from first to last, and its output was
      uploaded or there was nothing to process. */
  lemma {:induction false} ReportedExactly(turns: seq<Turn>, c: ChunkId)
    ensures c in Reported(turns) <==>
            exists i :: 0 <= i < |turns| && turns[i].Got? && turns[i].chunk == c
                        && !Stolen(turns[i].early + turns[i].late) && (!turns[i].downloaded || turns[i].uploaded)
  {
    if turns != [] {
      var last := |turns| - 1;
      ReportedExactly(turns[..last], c);
      assert forall i | 0 <= i < last :: turns[..last][i] == turns[i];
    }
  }

  /** Reports come in the order of the turns that brought them, one each. */
  lemma {:induction false} ReportedInOrder(turns: seq<Turn>) returns (position: seq<nat>)
    ensures |position| == |Reported(turns)|
    ensures forall i | 0 <= i < |position| ::
              position[i] < |turns| && Reports(turns[position[i]]) && Reported(turns)[i] == turns[position[i]].chunk
    ensures forall i, j | 0 <= i < j < |position| :: position[i] < position[j]
    ensures forall n: nat | n < |turns| && Reports(turns[n]) :: n in position
  {
    if turns == [] {
      position := [];
    } else {
      var m := |turns| - 1;
      var before := ReportedInOrder(turns[..m]);
      position := before + (if Reports(turns[m]) then [m] else []);
      assert forall n: nat | n < m :: turns[..m][n] == turns[n];
      forall n: nat | n < |turns| && Reports(turns[n])
        ensures n in position
      {
        assert n < m ==> n in before;
      }
    }
  }
}
