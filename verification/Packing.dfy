/** Placing PP stages of TP GPUs each on nodes: the topology check, and the node counts that feed it. */
module Packing {
  import opened Common

  function CeilDiv(a: nat, b: nat): nat
    requires b > 0
  {
    (a + b - 1) / b
  }

  function MaxOf(a: int, b: int): int { if a >= b then a else b }

  function StagesPerNode(tp: nat, gpus: nat): nat
    requires tp > 0
  {
    MaxOf(1, gpus / tp)
  }

  /** The outcomes of `_validate_parallelism_topology`. */
  datatype Verdict = Skipped | Accepted | TpTooLarge | TooFewNodes(needed: nat)

  /** `gpus` is the node size of the instance type, unknown types are let through. */
  function Validate(gpus: Option<nat>, tp: nat, pp: nat, nodes: nat): Verdict
    requires tp > 0
  {
    match gpus
    case None => Skipped
    case Some(g) =>
      if tp > g then TpTooLarge
      else
        var needed := CeilDiv(pp, StagesPerNode(tp, g));
        if nodes < needed then TooFewNodes(needed) else Accepted
  }

  // --------------------------------------------------------------- assignments

  function CountOn(place: seq<nat>, node: nat): nat {
    if place == [] then 0 else (if place[0] == node then 1 else 0) + CountOn(place[1..], node)
  }

  /** Stage i sits wholly on node place[i], and no node runs out of GPUs. */
  ghost predicate Fits(place: seq<nat>, tp: nat, pp: nat, nodes: nat, gpus: nat) {
    && |place| == pp
    && (forall i | 0 <= i < pp :: place[i] < nodes)
    && (forall n: nat | n < nodes :: CountOn(place, n) * tp <= gpus)
  }

  ghost predicate Packable(tp: nat, pp: nat, nodes: nat, gpus: nat) {
    exists place :: Fits(place, tp, pp, nodes, gpus)
  }

  /** The construction: consecutive stages fill one node after the other. */
  function Consecutive(pp: nat, s: nat): seq<nat>
    requires s > 0
  {
    seq(pp, i requires 0 <= i < pp => i / s)
  }

  lemma {:induction false} CountAppend(place: seq<nat>, x: nat, node: nat)
    ensures CountOn(place + [x], node) == CountOn(place, node) + (if x == node then 1 else 0)
  {
    if place == [] {
      assert [] + [x] == [x];
    } else {
      assert (place + [x])[1..] == place[1..] + [x];
      CountAppend(place[1..], x, node);
    }
  }

  function Clip(x: int, low: int, high: int): int {
    if x < low then low else if x > high then high else x
  }

  lemma NodeOfStage(k: nat, s: nat, n: nat)
    requires s > 0
    ensures k / s == n <==> n * s <= k < n * s + s
  {
    AtMostQuotient(n, s, k);
    AtMostQuotient(n + 1, s, k);
    assert (n + 1) * s == n * s + s;
  }

  lemma ClipStep(pp: int, base: int, s: nat)
    requires s > 0
    ensures Clip(pp - base, 0, s) == Clip(pp - 1 - base, 0, s) + (if base <= pp - 1 < base + s then 1 else 0)
  {
  }

  lemma OneMoreStage(pp: nat, s: nat)
    requires s > 0
    ensures Consecutive(pp + 1, s) == Consecutive(pp, s) + [pp / s]
  {
  }

  lemma CountStep(pp: nat, s: nat, n: nat, base: nat)
    requires s > 0 && base == n * s
    ensures CountOn(Consecutive(pp + 1, s), n) ==
            CountOn(Consecutive(pp, s), n) + (if base <= pp < base + s then 1 else 0)
  {
    OneMoreStage(pp, s);
    CountAppend(Consecutive(pp, s), pp / s, n);
    NodeOfStage(pp, s, n);
  }

  /** Of the first `pp` stages, node `n` gets those numbered from n * s up to (n + 1) * s. */
  lemma {:induction false} ConsecutiveCount(pp: nat, s: nat, n: nat)
    requires s > 0
    ensures CountOn(Consecutive(pp, s), n) == Clip(pp - n * s, 0, s)
  {
    MulMonotone(0, n, s);
    if pp > 0 {
      ConsecutiveCount(pp - 1, s, n);
      CountStep(pp - 1, s, n, n * s);
      ClipStep(pp, n * s, s);
    }
  }

  lemma CeilDivIs(a: nat, b: nat, n: nat)
    requires b > 0
    ensures CeilDiv(a, b) <= n <==> a <= n * b
  {
    AtMostQuotient(n + 1, b, a + b - 1);
    assert (n + 1) * b == n * b + b;
  }

  lemma Construction(tp: nat, pp: nat, nodes: nat, gpus: nat)
    requires 0 < tp <= gpus && pp <= nodes * (gpus / tp)
    ensures Packable(tp, pp, nodes, gpus)
  {
    var s := gpus / tp;
    AtMostQuotient(1, tp, gpus);
    var place := Consecutive(pp, s);
    forall i | 0 <= i < pp
      ensures place[i] < nodes
    {
      AtMostQuotient(nodes, s, i);
    }
    forall n: nat | n < nodes
      ensures CountOn(place, n) * tp <= gpus
    {
      ConsecutiveCount(pp, s, n);
      AtMostQuotient(CountOn(place, n), tp, gpus);
    }
    assert Fits(place, tp, pp, nodes, gpus);
  }

  // ----------------------------------------------------------------- pigeonhole

  function DropNode(place: seq<nat>, node: nat): seq<nat> {
    if place == [] then []
    else (if place[0] == node then [] else [place[0]]) + DropNode(place[1..], node)
  }

  lemma {:induction false} DropNodeCounts(place: seq<nat>, node: nat)
    ensures |place| == CountOn(place, node) + |DropNode(place, node)|
    ensures forall x :: x in DropNode(place, node) <==> x in place && x != node
    ensures forall n: nat | n != node :: CountOn(DropNode(place, node), n) == CountOn(place, n)
  {
    if place != [] {
      assert place == [place[0]] + place[1..];
      DropNodeCounts(place[1..], node);
      var rest := DropNode(place[1..], node);
      if place[0] == node {
        assert DropNode(place, node) == rest;
      } else {
        assert ([place[0]] + rest)[1..] == rest;
      }
    }
  }

  /** At most `s` stages on each of `nodes` nodes is at most nodes * s stages. */
  lemma {:induction false} Pigeonhole(place: seq<nat>, nodes: nat, s: nat)
    requires forall x | x in place :: x < nodes
    requires forall n: nat | n < nodes :: CountOn(place, n) <= s
    ensures |place| <= nodes * s
    decreases nodes
  {
    assert place != [] ==> place[0] in place;
    if nodes > 0 {
      DropNodeCounts(place, nodes - 1);
      Pigeonhole(DropNode(place, nodes - 1), nodes - 1, s);
      assert nodes * s == (nodes - 1) * s + s;
    }
  }

  lemma PackableBound(tp: nat, pp: nat, nodes: nat, gpus: nat)
    requires tp > 0 && Packable(tp, pp, nodes, gpus)
    ensures pp <= nodes * (gpus / tp)
  {
    var place :| Fits(place, tp, pp, nodes, gpus);
    forall n: nat | n < nodes
      ensures CountOn(place, n) <= gpus / tp
    {
      AtMostQuotient(CountOn(place, n), tp, gpus);
    }
    Pigeonhole(place, nodes, gpus / tp);
  }

  /** For a known instance type the check accepts exactly the configurations that can be packed. */
  lemma ValidationIsExact(gpus: nat, tp: nat, pp: nat, nodes: nat)
    requires tp > 0 && pp > 0
    ensures Validate(Some(gpus), tp, pp, nodes) == Accepted <==> Packable(tp, pp, nodes, gpus)
  {
    if tp <= gpus {
      AtMostQuotient(1, tp, gpus);
      CeilDivIs(pp, gpus / tp, nodes);
      if pp <= nodes * (gpus / tp) {
        Construction(tp, pp, nodes, gpus);
      }
    } else {
      assert gpus / tp == 0 by { AtMostQuotient(1, tp, gpus); }
    }
    if Packable(tp, pp, nodes, gpus) {
      PackableBound(tp, pp, nodes, gpus);
    }
  }

  /** The other outcomes: an unknown type is let through whatever the configuration, TP has to fit one node, and the
      number in the message is the least number of nodes that works. */
  lemma VerdictMeans(gpus: Option<nat>, tp: nat, pp: nat, nodes: nat)
    requires tp > 0 && pp > 0
    ensures Validate(gpus, tp, pp, nodes) == Skipped <==> gpus == None
    ensures Validate(gpus, tp, pp, nodes) == TpTooLarge <==> gpus.Some? && tp > gpus.value
    ensures Validate(gpus, tp, pp, nodes).TooFewNodes? ==>
              forall m: nat :: Packable(tp, pp, m, gpus.value) <==> Validate(gpus, tp, pp, nodes).needed <= m
  {
    if Validate(gpus, tp, pp, nodes).TooFewNodes? {
      forall m: nat
        ensures Packable(tp, pp, m, gpus.value) <==> Validate(gpus, tp, pp, nodes).needed <= m
      {
        ValidationIsExact(gpus.value, tp, pp, m);
      }
    }
  }

  // ---------------------------------------------------------------- node counts

  /** The user-specified path: math.ceil(pp / (gpus // tp)). */
  function UserNodes(gpus: nat, tp: nat, pp: nat): nat
    requires 0 < tp <= gpus
  {
    AtMostQuotient(1, tp, gpus);
    CeilDiv(pp, gpus / tp)
  }

  /** The oracle: max(1, math.ceil(tp * pp / gpus)). */
  function OracleNodes(gpus: nat, tp: nat, pp: nat): nat
    requires 0 < tp <= gpus
  {
    MaxOf(1, CeilDiv(tp * pp, gpus))
  }

  /** The user-specified path asks for the least number of nodes that works. */
  lemma UserNodesLeast(gpus: nat, tp: nat, pp: nat, nodes: nat)
    requires 0 < tp <= gpus && pp > 0
    ensures Packable(tp, pp, nodes, gpus) <==> UserNodes(gpus, tp, pp) <= nodes
  {
    AtMostQuotient(1, tp, gpus);
    ValidationIsExact(gpus, tp, pp, nodes);
  }

  /** The oracle's count is the least positive number of nodes with as many GPUs as the configuration needs. */
  lemma OracleCounts(gpus: nat, tp: nat, pp: nat, n: nat)
    requires 0 < tp <= gpus
    ensures OracleNodes(gpus, tp, pp) <= n <==> n >= 1 && tp * pp <= n * gpus
  {
    CeilDivIs(tp * pp, gpus, n);
  }

  lemma ScaledCeil(pp: nat, s: nat, tp: nat)
    requires s > 0 && tp > 0
    ensures tp * s > 0
    ensures CeilDiv(tp * pp, tp * s) == CeilDiv(pp, s)
  {
    assert tp * s >= s by { MulMonotone(1, tp, s); }
    forall n: nat
      ensures tp * pp <= n * (tp * s) <==> pp <= n * s
    {
      assert n * (tp * s) == (n * s) * tp;
      assert tp * pp == pp * tp;
      if pp <= n * s {
        MulMonotone(pp, n * s, tp);
      } else {
        MulMonotone(n * s + 1, pp, tp);
        assert (n * s + 1) * tp == (n * s) * tp + tp;
      }
    }
    var a, b := CeilDiv(tp * pp, tp * s), CeilDiv(pp, s);
    CeilDivIs(tp * pp, tp * s, a);
    CeilDivIs(pp, s, a);
    CeilDivIs(tp * pp, tp * s, b);
    CeilDivIs(pp, s, b);
  }

  /** When TP divides the GPUs per node, the oracle's count is the same least count. */
  lemma OracleAgrees(gpus: nat, tp: nat, pp: nat)
    requires 0 < tp <= gpus && gpus % tp == 0 && pp > 0
    ensures OracleNodes(gpus, tp, pp) == UserNodes(gpus, tp, pp)
    ensures Validate(Some(gpus), tp, pp, OracleNodes(gpus, tp, pp)) == Accepted
  {
    var s := gpus / tp;
    AtMostQuotient(1, tp, gpus);
    assert gpus == tp * s;
    ScaledCeil(pp, s, tp);
    CeilDivIs(pp, s, 0);
    UserNodesLeast(gpus, tp, pp, OracleNodes(gpus, tp, pp));
    ValidationIsExact(gpus, tp, pp, OracleNodes(gpus, tp, pp));
  }

  /** The sizes the oracle enumerates: TP a power of two up to 8, on the node sizes of the instance table. */
  lemma OracleAlwaysAccepted(gpus: nat, tp: nat, pp: nat)
    requires gpus in {1, 4, 8} && tp in {1, 2, 4, 8} && tp <= gpus && pp > 0
    ensures Validate(Some(gpus), tp, pp, OracleNodes(gpus, tp, pp)) == Accepted
  {
    OracleAgrees(gpus, tp, pp);
  }

  lemma WholeNodes(gpus: nat, tp: nat)
    requires 0 < tp <= gpus
    ensures var s := gpus / tp;
            && s > 0 && gpus * s > 0
            && OracleNodes(gpus, tp, gpus * s) == tp * s && UserNodes(gpus, tp, gpus * s) == gpus
  {
    var s := gpus / tp;
    AtMostQuotient(1, tp, gpus);
    MulMonotone(1, gpus, s);
    MulMonotone(1, s, tp);
    ExactCeil(tp * s, gpus);
    assert tp * (gpus * s) == (tp * s) * gpus;
    ExactCeil(gpus, s);
  }

  lemma ExactCeil(n: nat, d: nat)
    requires d > 0
    ensures CeilDiv(n * d, d) == n
  {
    var c := CeilDiv(n * d, d);
    CeilDivIs(n * d, d, c);
    CeilDivIs(n * d, d, n);
    assert n <= c by {
      AtMostQuotient(n, d, c * d);
      AtMostQuotient(c, d, c * d);
      AtMostQuotient(c + 1, d, c * d);
      assert (c + 1) * d == c * d + d;
    }
  }

  /** When TP does not divide the GPUs per node, as many stages as fill `gpus` nodes are given too few nodes. */
  lemma OracleTooSmall(gpus: nat, tp: nat)
    requires 0 < tp <= gpus && gpus % tp != 0
    ensures var pp := gpus * (gpus / tp);
            && pp > 0 && OracleNodes(gpus, tp, pp) < gpus
            && Validate(Some(gpus), tp, pp, OracleNodes(gpus, tp, pp)) == TooFewNodes(gpus)
            && !Packable(tp, pp, OracleNodes(gpus, tp, pp), gpus)
  {
    WholeNodes(gpus, tp);
    var s := gpus / tp;
    assert gpus == tp * s + gpus % tp;
    AtMostQuotient(1, tp, gpus);
    ValidationIsExact(gpus, tp, gpus * s, OracleNodes(gpus, tp, gpus * s));
  }

  /** The oracle's count passes the check for every PP if and only if TP divides the GPUs per node. */
  lemma OracleExact(gpus: nat, tp: nat)
    requires 0 < tp <= gpus
    ensures (forall pp: nat | pp > 0 :: Validate(Some(gpus), tp, pp, OracleNodes(gpus, tp, pp)) == Accepted)
            <==> gpus % tp == 0
  {
    if gpus % tp == 0 {
      forall pp: nat | pp > 0
        ensures Validate(Some(gpus), tp, pp, OracleNodes(gpus, tp, pp)) == Accepted
      {
        OracleAgrees(gpus, tp, pp);
      }
    } else {
      OracleTooSmall(gpus, tp);
    }
  }
}
