/** Quota reservations: an in-memory counter per (region, market, family) beside a persisted table with one row per
    cluster. The quota table is fixed. */
module Quota {
  import opened Common

  datatype Key = Key(region: string, market: string, family: string)

  /** A row of the quota file: the instance type's family and vCPU count. */
  datatype Instance = Instance(family: string, vcpu: nat)

  datatype Limits = Limits(baseline: map<Key, nat>, instances: map<string, Instance>)

  datatype Reservation = Reservation(cluster: string, key: Key, vcpu: int)

  function Baseline(limits: Limits, k: Key): nat {
    if k in limits.baseline then limits.baseline[k] else 0
  }

  function Used(used: map<Key, int>, k: Key): int {
    if k in used then used[k] else 0
  }

  // ------------------------------------------------------------------ the table

  /** The persisted vCPUs of one key. */
  function Sum(rows: seq<Reservation>, k: Key): int {
    if rows == [] then 0 else (if rows[0].key == k then rows[0].vcpu else 0) + Sum(rows[1..], k)
  }

  predicate Has(rows: seq<Reservation>, name: string) {
    exists r :: r in rows && r.cluster == name
  }

  function Find(rows: seq<Reservation>, name: string): Option<Reservation> {
    if rows == [] then None
    else if rows[0].cluster == name then Some(rows[0])
    else Find(rows[1..], name)
  }

  /** DELETE FROM reservations WHERE cluster_name = name. */
  function Without(rows: seq<Reservation>, name: string): seq<Reservation> {
    if rows == [] then []
    else (if rows[0].cluster == name then [] else [rows[0]]) + Without(rows[1..], name)
  }

  /** The column is a primary key. */
  predicate Keyed(rows: seq<Reservation>) {
    forall i, j | 0 <= i < j < |rows| :: rows[i].cluster != rows[j].cluster
  }

  /** No row holds a negative number of vCPUs. */
  predicate NonNegative(rows: seq<Reservation>) {
    forall r | r in rows :: r.vcpu >= 0
  }

  lemma {:induction false} SumNonNegative(rows: seq<Reservation>, k: Key)
    requires NonNegative(rows)
    ensures Sum(rows, k) >= 0
  {
    if rows != [] {
      assert rows[0] in rows;
      assert forall r | r in rows[1..] :: r in rows;
      SumNonNegative(rows[1..], k);
    }
  }

  function VcpuOf(found: Option<Reservation>, k: Key): int {
    if found.Some? && found.value.key == k then found.value.vcpu else 0
  }

  lemma {:induction false} SumAppend(rows: seq<Reservation>, r: Reservation, k: Key)
    ensures Sum(rows + [r], k) == Sum(rows, k) + (if r.key == k then r.vcpu else 0)
  {
    if rows == [] {
      assert [] + [r] == [r] && [r][1..] == [];
    } else {
      assert (rows + [r])[1..] == rows[1..] + [r];
      SumAppend(rows[1..], r, k);
    }
  }

  lemma {:induction false} WithoutMembers(rows: seq<Reservation>, name: string)
    requires Keyed(rows)
    ensures Keyed(Without(rows, name))
    ensures forall r :: r in Without(rows, name) <==> r in rows && r.cluster != name
  {
    if rows != [] {
      WithoutMembers(rows[1..], name);
      assert forall r :: r in rows <==> r == rows[0] || r in rows[1..];
      forall r | r in rows[1..]
        ensures r.cluster != rows[0].cluster
      {
        var i :| 0 <= i < |rows[1..]| && rows[1..][i] == r;
        assert rows[i + 1] == r;
      }
    }
  }

  lemma {:induction false} FindMember(rows: seq<Reservation>, name: string)
    ensures Find(rows, name).Some? <==> Has(rows, name)
    ensures Find(rows, name).Some? ==> Find(rows, name).value in rows && Find(rows, name).value.cluster == name
    ensures Find(rows, name).None? ==> Without(rows, name) == rows
  {
    if rows != [] {
      FindMember(rows[1..], name);
      assert forall r :: r in rows <==> r == rows[0] || r in rows[1..];
      assert rows == [rows[0]] + rows[1..];
    }
  }

  /** In a keyed table the row found is the only one of its name, and without it nothing is removed. */
  lemma FoundIs(rows: seq<Reservation>, name: string)
    ensures Find(rows, name).None? ==> Without(rows, name) == rows && forall r | r in rows :: r.cluster != name
    ensures Find(rows, name).Some? ==> Find(rows, name).value in rows && Find(rows, name).value.cluster == name
    ensures Keyed(rows) ==> forall r | r in rows && r.cluster == name :: Find(rows, name) == Some(r)
  {
    FindMember(rows, name);
    if Keyed(rows) {
      forall r | r in rows && r.cluster == name
        ensures Find(rows, name) == Some(r)
      {
        assert Has(rows, name);
        var f := Find(rows, name).value;
        var i :| 0 <= i < |rows| && rows[i] == r;
        var j :| 0 <= j < |rows| && rows[j] == f;
        assert i < j ==> rows[i].cluster != rows[j].cluster;
        assert j < i ==> rows[j].cluster != rows[i].cluster;
      }
    }
  }

  /** Removing a cluster lowers its own key's sum by its vCPUs, and no other. */
  lemma {:induction false} SumWithout(rows: seq<Reservation>, name: string, k: Key)
    requires Keyed(rows)
    ensures Sum(rows, k) == Sum(Without(rows, name), k) + VcpuOf(Find(rows, name), k)
  {
    if rows != [] {
      SumWithout(rows[1..], name, k);
      var w := Without(rows[1..], name);
      if rows[0].cluster == name {
        FindMember(rows[1..], name);
        assert Find(rows[1..], name).None?;
        assert Without(rows, name) == w;
      } else {
        assert ([rows[0]] + w)[1..] == w;
      }
    }
  }

  // ------------------------------------------------------------------- the state

  datatype Tracker = Tracker(used: map<Key, int>, rows: seq<Reservation>)

  function KeyFor(limits: Limits, region: string, market: string, kind: string): Key
    requires kind in limits.instances
  {
    Key(region, market, limits.instances[kind].family)
  }

  function Available(limits: Limits, s: Tracker, k: Key): int {
    Baseline(limits, k) - Used(s.used, k)
  }

  predicate Admits(limits: Limits, s: Tracker, region: string, market: string, kind: string, n: int) {
    kind in limits.instances &&
    limits.instances[kind].vcpu * n <= Available(limits, s, KeyFor(limits, region, market, kind))
  }

  /** INSERT OR REPLACE, then the counter goes up by the new row, whatever row it replaced. */
  function AfterReserve(limits: Limits, s: Tracker, name: string, region: string, market: string, kind: string, n: int): Tracker {
    if Admits(limits, s, region, market, kind, n) then
      var k, vcpu := KeyFor(limits, region, market, kind), limits.instances[kind].vcpu * n;
      Tracker(s.used[k := Used(s.used, k) + vcpu], Without(s.rows, name) + [Reservation(name, k, vcpu)])
    else s
  }

  function Max(a: int, b: int): int { if a >= b then a else b }

  function AfterRelease(s: Tracker, name: string): Tracker {
    match Find(s.rows, name)
    case None => s
    case Some(r) => Tracker(s.used[r.key := Max(0, Used(s.used, r.key) - r.vcpu)], Without(s.rows, name))
  }

  function ReleaseAll(s: Tracker, names: seq<string>): Tracker
    decreases |names|
  {
    if names == [] then s else ReleaseAll(AfterRelease(s, names[0]), names[1..])
  }

  function Stale(rows: seq<Reservation>, live: set<string>): seq<string> {
    if rows == [] then []
    else (if rows[0].cluster in live then [] else [rows[0].cluster]) + Stale(rows[1..], live)
  }

  /** Replaying the table into fresh counters. */
  function Replay(rows: seq<Reservation>, used: map<Key, int>): map<Key, int> {
    if rows == [] then used
    else Replay(rows[1..], used[rows[0].key := Used(used, rows[0].key) + rows[0].vcpu])
  }

  lemma {:induction false} ReplaySums(rows: seq<Reservation>, used: map<Key, int>, k: Key)
    ensures Used(Replay(rows, used), k) == Used(used, k) + Sum(rows, k)
  {
    if rows != [] {
      ReplaySums(rows[1..], used[rows[0].key := Used(used, rows[0].key) + rows[0].vcpu], k);
    }
  }

  // ---------------------------------------------------------------------- steps

  datatype Op =
    | Reserve(name: string, region: string, market: string, kind: string, count: int)
    | Release(name: string)
    | Reconcile(live: set<string>)
    | Restart

  function Perform(limits: Limits, s: Tracker, o: Op): Tracker {
    match o
    case Reserve(name, region, market, kind, n) => AfterReserve(limits, s, name, region, market, kind, n)
    case Release(name) => AfterRelease(s, name)
    case Reconcile(live) => ReleaseAll(s, Stale(s.rows, live))
    case Restart => Tracker(Replay(s.rows, map[]), s.rows)
  }

  /** The source puts no bound on the instance count; a negative one makes a row that holds less than nothing. */
  predicate Sane(limits: Limits, o: Op) {
    o.Reserve? && o.kind in limits.instances ==> limits.instances[o.kind].vcpu * o.count >= 0
  }

  predicate AllSane(limits: Limits, ops: seq<Op>) {
    forall o | o in ops :: Sane(limits, o)
  }

  ghost predicate Bounded(limits: Limits, s: Tracker) {
    Keyed(s.rows) && NonNegative(s.rows) && forall k :: Sum(s.rows, k) <= Used(s.used, k) <= Baseline(limits, k)
  }

  /** What the counter holds beyond the table. */
  function Drift(s: Tracker, k: Key): int {
    Used(s.used, k) - Sum(s.rows, k)
  }

  /** The vCPUs of a row an accepted reservation replaces: they leave the table but not the counter. */
  function Replaced(limits: Limits, s: Tracker, o: Op, k: Key): int {
    if o.Reserve? && Admits(limits, s, o.region, o.market, o.kind, o.count) then VcpuOf(Find(s.rows, o.name), k) else 0
  }

  lemma ReserveEffect(limits: Limits, s: Tracker, o: Op, k: Key)
    requires Bounded(limits, s) && o.Reserve? && Sane(limits, o)
    ensures var s' := Perform(limits, s, o);
            && Keyed(s'.rows) && NonNegative(s'.rows)
            && Sum(s'.rows, k) <= Used(s'.used, k) <= Baseline(limits, k)
            && Drift(s', k) == Drift(s, k) + Replaced(limits, s, o, k)
  {
    if Admits(limits, s, o.region, o.market, o.kind, o.count) {
      var key := KeyFor(limits, o.region, o.market, o.kind);
      SumWithout(s.rows, o.name, k);
      FindMember(s.rows, o.name);
      WithoutMembers(s.rows, o.name);
      SumAppend(Without(s.rows, o.name), Reservation(o.name, key, limits.instances[o.kind].vcpu * o.count), k);
    }
  }

  /** Releasing never reaches the `max(0, ...)` clip, so counter and table go down together. */
  lemma ReleaseEffect(limits: Limits, s: Tracker, name: string)
    requires Bounded(limits, s)
    ensures Bounded(limits, AfterRelease(s, name))
    ensures forall k :: Drift(AfterRelease(s, name), k) == Drift(s, k)
    ensures Find(s.rows, name).Some? ==> Used(s.used, Find(s.rows, name).value.key) >= Find(s.rows, name).value.vcpu
    ensures AfterRelease(s, name).rows == Without(s.rows, name)
  {
    forall k
      ensures Sum(s.rows, k) == Sum(Without(s.rows, name), k) + VcpuOf(Find(s.rows, name), k)
    {
      SumWithout(s.rows, name, k);
    }
    WithoutMembers(s.rows, name);
    FindMember(s.rows, name);
    match Find(s.rows, name)
    case None =>
    case Some(r) =>
      SumNonNegative(Without(s.rows, name), r.key);
      assert Sum(s.rows, r.key) <= Used(s.used, r.key);
  }

  lemma {:induction false} ReleaseAllEffect(limits: Limits, s: Tracker, names: seq<string>)
    requires Bounded(limits, s)
    ensures Bounded(limits, ReleaseAll(s, names))
    ensures forall k :: Drift(ReleaseAll(s, names), k) == Drift(s, k)
    ensures forall r :: r in ReleaseAll(s, names).rows <==> r in s.rows && r.cluster !in names
    decreases |names|
  {
    if names != [] {
      ReleaseEffect(limits, s, names[0]);
      WithoutMembers(s.rows, names[0]);
      ReleaseAllEffect(limits, AfterRelease(s, names[0]), names[1..]);
    }
  }

  lemma {:induction false} StaleIs(rows: seq<Reservation>, live: set<string>)
    ensures forall n :: n in Stale(rows, live) <==> n !in live && Has(rows, n)
  {
    if rows != [] {
      assert rows == [rows[0]] + rows[1..];
      StaleIs(rows[1..], live);
      forall n
        ensures n in Stale(rows, live) <==> n !in live && Has(rows, n)
      {
        if n !in live && n == rows[0].cluster {
          assert rows[0] in rows;
        }
        if Has(rows[1..], n) {
          var r :| r in rows[1..] && r.cluster == n;
          assert r in rows;
        }
      }
    }
  }

  /** A reconcile keeps exactly the reservations of live clusters. */
  lemma ReconcileKeepsLive(limits: Limits, s: Tracker, live: set<string>)
    requires Bounded(limits, s)
    ensures forall r :: r in Perform(limits, s, Reconcile(live)).rows <==> r in s.rows && r.cluster in live
  {
    StaleIs(s.rows, live);
    ReleaseAllEffect(limits, s, Stale(s.rows, live));
    forall r | r in s.rows
      ensures Has(s.rows, r.cluster)
    {
    }
  }

  /** Every operation keeps the bounds, and moves the drift only by what it replaces; a restart clears it. */
  lemma StepEffect(limits: Limits, s: Tracker, o: Op)
    requires Bounded(limits, s) && Sane(limits, o)
    ensures Bounded(limits, Perform(limits, s, o))
    ensures forall k :: Drift(Perform(limits, s, o), k) == if o.Restart? then 0 else Drift(s, k) + Replaced(limits, s, o, k)
  {
    match o
    case Reserve(_, _, _, _, _) =>
      forall k
        ensures var s' := Perform(limits, s, o);
                Keyed(s'.rows) && NonNegative(s'.rows) && Sum(s'.rows, k) <= Used(s'.used, k) <= Baseline(limits, k)
        ensures Drift(Perform(limits, s, o), k) == Drift(s, k) + Replaced(limits, s, o, k)
      {
        ReserveEffect(limits, s, o, k);
      }
      ReserveEffect(limits, s, o, Key("", "", ""));
    case Release(name) =>
      ReleaseEffect(limits, s, name);
    case Reconcile(live) =>
      ReleaseAllEffect(limits, s, Stale(s.rows, live));
    case Restart =>
      forall k
        ensures Used(Replay(s.rows, map[]), k) == Sum(s.rows, k)
      {
        ReplaySums(s.rows, map[], k);
      }
  }

  // ----------------------------------------------------------------------- runs

  function End(limits: Limits, s: Tracker, ops: seq<Op>): Tracker
    decreases |ops|
  {
    if ops == [] then s else End(limits, Perform(limits, s, ops[0]), ops[1..])
  }

  /** The vCPUs of one key replaced since the last restart of the run, on top of `before`. */
  function Leaked(limits: Limits, s: Tracker, ops: seq<Op>, k: Key, before: int): int
    decreases |ops|
  {
    if ops == [] then before
    else Leaked(limits, Perform(limits, s, ops[0]), ops[1..], k,
                if ops[0].Restart? then 0 else before + Replaced(limits, s, ops[0], k))
  }

  lemma {:induction false} RunEffect(limits: Limits, s: Tracker, ops: seq<Op>, k: Key)
    requires Bounded(limits, s) && AllSane(limits, ops)
    ensures Bounded(limits, End(limits, s, ops))
    ensures Drift(End(limits, s, ops), k) == Leaked(limits, s, ops, k, Drift(s, k))
    decreases |ops|
  {
    if ops != [] {
      StepEffect(limits, s, ops[0]);
      RunEffect(limits, Perform(limits, s, ops[0]), ops[1..], k);
    }
  }

  /** From any table that fits the quota, started by a replay: after every run, persisted <= used <= baseline for each
      key, and the counter exceeds the table by exactly the vCPUs of the rows replaced since the last restart. */
  lemma QuotaConserved(limits: Limits, rows: seq<Reservation>, ops: seq<Op>, k: Key)
    requires Keyed(rows) && NonNegative(rows) && forall k' :: Sum(rows, k') <= Baseline(limits, k')
    requires AllSane(limits, ops)
    ensures var s := End(limits, Tracker(Replay(rows, map[]), rows), ops);
            && Sum(s.rows, k) <= Used(s.used, k) <= Baseline(limits, k)
            && Used(s.used, k) == Sum(s.rows, k) + Leaked(limits, Tracker(Replay(rows, map[]), rows), ops, k, 0)
  {
    var s0 := Tracker(Replay(rows, map[]), rows);
    forall k'
      ensures Used(s0.used, k') == Sum(rows, k')
    {
      ReplaySums(rows, map[], k');
    }
    RunEffect(limits, s0, ops, k);
  }

  /** One reservation keeps counter and table equal for every key if and only if it is refused, its name is new, or the
      row it replaces holds no vCPUs. */
  lemma ReserveExact(limits: Limits, s: Tracker, o: Op)
    requires Bounded(limits, s) && o.Reserve? && Sane(limits, o) && forall k :: Drift(s, k) == 0
    ensures (forall k :: Drift(Perform(limits, s, o), k) == 0) <==>
            || !Admits(limits, s, o.region, o.market, o.kind, o.count)
            || !Has(s.rows, o.name)
            || (Find(s.rows, o.name).Some? && Find(s.rows, o.name).value.vcpu == 0)
  {
    StepEffect(limits, s, o);
    FindMember(s.rows, o.name);
    if Admits(limits, s, o.region, o.market, o.kind, o.count) && Has(s.rows, o.name) {
      var k := Find(s.rows, o.name).value.key;
      assert Drift(Perform(limits, s, o), k) == Find(s.rows, o.name).value.vcpu;
    }
  }

  /** Reserving a live name again: the counter holds both reservations, the table one, until a restart. */
  lemma ReservedTwice(limits: Limits)
    requires limits == Limits(map[Key("r", "m", "f") := 8], map["t" := Instance("f", 4)])
    ensures var k, o := Key("r", "m", "f"), Reserve("c", "r", "m", "t", 1);
            var s := End(limits, Tracker(map[], []), [o, o]);
            && Used(s.used, k) == 8 && Sum(s.rows, k) == 4
            && Used(Perform(limits, s, Restart).used, k) == 4
            && !Admits(limits, s, "r", "m", "t", 1) && Admits(limits, Perform(limits, s, Restart), "r", "m", "t", 1)
  {
    var k, o := Key("r", "m", "f"), Reserve("c", "r", "m", "t", 1);
    var once := Tracker(map[k := 4], [Reservation("c", k, 4)]);
    var twice := Tracker(map[k := 8], [Reservation("c", k, 4)]);
    assert Perform(limits, Tracker(map[], []), o) == once;
    assert Without(once.rows, "c") == [];
    assert Perform(limits, once, o) == twice;
    assert [o, o][1..] == [o] && [o][1..] == [];
    assert End(limits, once, [o]) == twice;
    ReplaySums(twice.rows, map[], k);
  }

  // ------------------------------------------------------------- negative counts

  lemma FillFits(v: int, room: int, m: int)
    requires v > 0 && room >= 0 && m == room / v
    ensures 0 <= m && v * m <= room < v * m + v
  {
  }

  lemma {:induction false} FindAppended(rows: seq<Reservation>, r: Reservation)
    requires !Has(rows, r.cluster)
    ensures Find(rows + [r], r.cluster) == Some(r)
  {
    if rows != [] {
      assert rows[0] in rows;
      assert forall x | x in rows[1..] :: x in rows;
      assert (rows + [r])[1..] == rows[1..] + [r];
      FindAppended(rows[1..], r);
    }
  }

  /** Replacing another row does not touch this one. */
  lemma {:induction false} FindKept(rows: seq<Reservation>, name: string, other: string, r: Reservation)
    requires name != other && r.cluster == other
    ensures Find(Without(rows, other) + [r], name) == Find(rows, name)
  {
    if rows != [] {
      FindKept(rows[1..], name, other, r);
      var w := Without(rows[1..], other);
      if rows[0].cluster == other {
        assert Without(rows, other) == w;
      } else {
        assert (Without(rows, other) + [r])[1..] == w + [r];
      }
    } else {
      assert ([] + [r])[1..] == [];
    }
  }

  predicate Within(limits: Limits, s: Tracker, k: Key) {
    Used(s.used, k) <= Baseline(limits, k)
  }

  ghost predicate StaysWithin(limits: Limits, s: Tracker) {
    forall ops, k :: AllSane(limits, ops) ==> Within(limits, End(limits, s, ops), k)
  }

  lemma NegativeRow(limits: Limits, s: Tracker, o: Op)
    requires Keyed(s.rows)
    requires o.Reserve? && Admits(limits, s, o.region, o.market, o.kind, o.count) && !Sane(limits, o)
    ensures var k, v := KeyFor(limits, o.region, o.market, o.kind), limits.instances[o.kind].vcpu;
            var s1, w := Perform(limits, s, o), v * o.count;
            && 0 < v <= -w && Used(s1.used, k) <= Baseline(limits, k)
            && Find(s1.rows, o.name) == Some(Reservation(o.name, k, w))
  {
    var k, v := KeyFor(limits, o.region, o.market, o.kind), limits.instances[o.kind].vcpu;
    WithoutMembers(s.rows, o.name);
    FindAppended(Without(s.rows, o.name), Reservation(o.name, k, v * o.count));
    MulMonotone(o.count, -1, v);
  }

  lemma Filled(limits: Limits, s: Tracker, region: string, market: string, kind: string, name: string, m: int)
    requires kind in limits.instances && limits.instances[kind].vcpu > 0
    requires Used(s.used, KeyFor(limits, region, market, kind)) <= Baseline(limits, KeyFor(limits, region, market, kind))
    requires m == Available(limits, s, KeyFor(limits, region, market, kind)) / limits.instances[kind].vcpu
    ensures var k, v, o := KeyFor(limits, region, market, kind), limits.instances[kind].vcpu, Reserve(name, region, market, kind, m);
            && Sane(limits, o) && Used(Perform(limits, s, o).used, k) + v > Baseline(limits, k)
            && Perform(limits, s, o).rows == Without(s.rows, name) + [Reservation(name, k, v * m)]
  {
    FillFits(limits.instances[kind].vcpu, Available(limits, s, KeyFor(limits, region, market, kind)), m);
  }

  lemma TwoSteps(limits: Limits, s: Tracker, a: Op, b: Op)
    ensures End(limits, s, [a, b]) == Perform(limits, Perform(limits, s, a), b)
  {
    assert [a, b][1..] == [b] && [b][1..] == [];
    assert End(limits, Perform(limits, s, a), [b]) == End(limits, Perform(limits, Perform(limits, s, a), b), []);
  }

  /** Once an admitted reservation has a negative row, filling the quota and then releasing that row overshoots. */
  lemma Overshoots(limits: Limits, s: Tracker, o: Op)
    requires Keyed(s.rows)
    requires o.Reserve? && Admits(limits, s, o.region, o.market, o.kind, o.count) && !Sane(limits, o)
    ensures !StaysWithin(limits, Perform(limits, s, o))
  {
    NegativeRow(limits, s, o);
    var s1, k, v := Perform(limits, s, o), KeyFor(limits, o.region, o.market, o.kind), limits.instances[o.kind].vcpu;
    var fill := Reserve(o.name + "+", o.region, o.market, o.kind, Available(limits, s1, k) / v);
    Filled(limits, s1, o.region, o.market, o.kind, fill.name, fill.count);
    FindKept(s1.rows, o.name, fill.name, Reservation(fill.name, k, v * fill.count));
    TwoSteps(limits, s1, fill, Release(o.name));
    assert AllSane(limits, [fill, Release(o.name)]);
    assert !Within(limits, End(limits, s1, [fill, Release(o.name)]), k);
  }

  /** A reservation of minus one instance, one of three that fits only because of it, and the release of the first:
      12 vCPUs are used of 8. */
  lemma NegativeCount(limits: Limits)
    requires limits == Limits(map[Key("r", "m", "f") := 8], map["t" := Instance("f", 4)])
    ensures var k, ops := Key("r", "m", "f"), [Reserve("c", "r", "m", "t", -1), Reserve("d", "r", "m", "t", 3), Release("c")];
            Used(End(limits, Tracker(map[], []), ops).used, k) == 12 && Baseline(limits, k) == 8
  {
    var k := Key("r", "m", "f");
    var c, d := Reservation("c", k, -4), Reservation("d", k, 12);
    var s1, s2, s3 := Tracker(map[k := -4], [c]), Tracker(map[k := 8], [c, d]), Tracker(map[k := 12], [d]);
    var ops := [Reserve("c", "r", "m", "t", -1), Reserve("d", "r", "m", "t", 3), Release("c")];
    assert Perform(limits, Tracker(map[], []), ops[0]) == s1;
    assert [c][1..] == [] && Without([c], "d") == [c];
    assert Perform(limits, s1, ops[1]) == s2;
    assert [c, d][1..] == [d] && [d][1..] == [] && Without([d], "c") == [d] && Without([c, d], "c") == [d];
    assert Perform(limits, s2, ops[2]) == s3;
    assert ops[1..][1..] == [ops[2]];
    TwoSteps(limits, s1, ops[1], ops[2]);
    assert ops[1..] == [ops[1], ops[2]];
  }

  /** The counter stays within the baseline over every continuation without negative reservations if and only if the
      reservation was refused or its own vCPUs are not negative. */
  lemma StaysWithinIffSane(limits: Limits, s: Tracker, o: Op)
    requires Bounded(limits, s) && o.Reserve?
    ensures StaysWithin(limits, Perform(limits, s, o))
            <==> !Admits(limits, s, o.region, o.market, o.kind, o.count) || Sane(limits, o)
  {
    if Admits(limits, s, o.region, o.market, o.kind, o.count) && !Sane(limits, o) {
      Overshoots(limits, s, o);
    } else {
      var s1 := Perform(limits, s, o);
      assert Bounded(limits, s1) by {
        if Sane(limits, o) {
          StepEffect(limits, s, o);
        }
      }
      forall ops, k | AllSane(limits, ops)
        ensures Within(limits, End(limits, s1, ops), k)
      {
        RunEffect(limits, s1, ops, k);
      }
    }
  }

  // ------------------------------------------------------------------- the class

  class VPCQuotaTracker {
    const limits: Limits
    var used: map<Key, int>
    var rows: seq<Reservation>

    function State(): Tracker
      reads this
    {
      Tracker(used, rows)
    }

    /** Opening the database: replay what it holds. */
    constructor (limits: Limits, persisted: seq<Reservation>)
      ensures this.limits == limits && rows == persisted && used == Replay(persisted, map[])
    {
      this.limits := limits;
      rows := persisted;
      used := map[];
      new;
      var i := 0;
      while i < |rows|
        invariant 0 <= i <= |rows| && rows == persisted
        invariant Replay(persisted[i..], used) == Replay(persisted, map[])
      {
        used := used[rows[i].key := Used(used, rows[i].key) + rows[i].vcpu];
        i := i + 1;
      }
    }

    method ReserveCluster(name: string, region: string, market: string, kind: string, n: int) returns (ok: bool)
      modifies this
      ensures ok == Admits(limits, old(State()), region, market, kind, n)
      ensures State() == Perform(limits, old(State()), Reserve(name, region, market, kind, n))
      ensures kind !in limits.instances ==> !ok
      ensures kind in limits.instances ==>
                var key := Key(region, market, limits.instances[kind].family);
                var left := (if key in limits.baseline then limits.baseline[key] else 0) - (if key in old(used) then old(used)[key] else 0);
                ok == (limits.instances[kind].vcpu * n <= left)
      ensures !ok ==> used == old(used) && rows == old(rows)
      ensures ok ==>
                var key, vcpu := Key(region, market, limits.instances[kind].family), limits.instances[kind].vcpu * n;
                && used == old(used)[key := (if key in old(used) then old(used)[key] else 0) + vcpu]
                && rows != [] && rows[|rows| - 1] == Reservation(name, key, vcpu)
                && rows[..|rows| - 1] == Without(old(rows), name)
    {
      if kind !in limits.instances {
        return false;
      }
      var key := Key(region, market, limits.instances[kind].family);
      var vcpu := limits.instances[kind].vcpu * n;
      if vcpu > Baseline(limits, key) - Used(used, key) {
        return false;
      }
      rows := Without(rows, name) + [Reservation(name, key, vcpu)];
      used := used[key := Used(used, key) + vcpu];
      return true;
    }

    method ReleaseCluster(name: string)
      modifies this
      ensures State() == Perform(limits, old(State()), Release(name))
      ensures rows == Without(old(rows), name)
      ensures Keyed(old(rows)) ==>
                && (forall r | r in old(rows) && r.cluster == name ::
                      var before := if r.key in old(used) then old(used)[r.key] else 0;
                      used == old(used)[r.key := if before >= r.vcpu then before - r.vcpu else 0])
                && ((forall r | r in old(rows) :: r.cluster != name) ==> used == old(used))
    {
      FoundIs(rows, name);
      var found := Find(rows, name);
      if found == None {
        return;
      }
      var r := found.value;
      rows := Without(rows, name);
      used := used[r.key := Max(0, Used(used, r.key) - r.vcpu)];
    }

    method Reconcile(live: set<string>)
      modifies this
      ensures State() == Perform(limits, old(State()), Op.Reconcile(live))
    {
      var stale := Stale(rows, live);
      ghost var s := State();
      var i := 0;
      while i < |stale|
        invariant 0 <= i <= |stale|
        invariant ReleaseAll(State(), stale[i..]) == ReleaseAll(s, stale)
      {
        ReleaseCluster(stale[i]);
        i := i + 1;
      }
    }
  }
}
