/** Making clusters match the desired ranks: apply everything, then delete what is stale, cluster after cluster,
    with any call failing before or after it took effect. */
module Reconciler {
  import opened Common

  type ObjectKey = nat
  type Spec = nat
  type ClusterKey = nat

  datatype Obj = Obj(key: ObjectKey, spec: Spec)

  type Table = map<ObjectKey, Spec>

  /** The call of one reconcile that raises, if any, and whether it took effect all the same. */
  datatype Fault = NoFault | ListFails | ApplyFails(at: nat, took: bool) | DeleteFails(at: nat, took: bool)

  datatype Outcome = Done | ListError | ApplyError | DeleteError

  /** Objects applied one after the other; the last one wins a name. */
  function Applied(t: Table, objs: seq<Obj>): Table {
    if objs == [] then t
    else Applied(t, objs[..|objs| - 1])[objs[|objs| - 1].key := objs[|objs| - 1].spec]
  }

  /** The state a cluster should end in. */
  function Wanted(desired: seq<Obj>): Table {
    Applied(map[], desired)
  }

  lemma {:induction false} AppliedIsUnion(t: Table, objs: seq<Obj>)
    ensures Applied(t, objs) == t + Wanted(objs)
  {
    if objs == [] {
      assert t + map[] == t;
    } else {
      AppliedIsUnion(t, objs[..|objs| - 1]);
    }
  }

  predicate HasKey(objs: seq<Obj>, k: ObjectKey) {
    exists i :: 0 <= i < |objs| && objs[i].key == k
  }

  /** Object `i` is the last of its key. */
  predicate LastOf(objs: seq<Obj>, i: nat) {
    i < |objs| && forall j | i < j < |objs| :: objs[j].key != objs[i].key
  }

  /** The last object of every key is in the table as it is. */
  predicate HoldsAll(t: Table, objs: seq<Obj>) {
    forall i | 0 <= i < |objs| && LastOf(objs, i) :: objs[i].key in t && t[objs[i].key] == objs[i].spec
  }

  /** Table `t'` is `t` with these objects written over it, the last one of each key, and nothing else. */
  ghost predicate WrittenOver(t: Table, objs: seq<Obj>, t': Table) {
    && (forall k :: k in t' <==> k in t || HasKey(objs, k))
    && HoldsAll(t', objs)
    && (forall k | k in t && !HasKey(objs, k) :: k in t' && t'[k] == t[k])
  }

  lemma HasKeySnoc(objs: seq<Obj>, o: Obj, k: ObjectKey)
    ensures HasKey(objs + [o], k) <==> HasKey(objs, k) || o.key == k
  {
    var all := objs + [o];
    if i :| 0 <= i < |objs| && objs[i].key == k {
      assert all[i].key == k;
    }
    if o.key == k {
      assert all[|objs|].key == k;
    }
    if i :| 0 <= i < |all| && all[i].key == k {
      assert i < |objs| ==> objs[i].key == k;
    }
  }

  lemma HoldsAllSnoc(t: Table, objs: seq<Obj>, o: Obj)
    requires HoldsAll(t, objs)
    ensures HoldsAll(t[o.key := o.spec], objs + [o])
  {
    var all := objs + [o];
    forall i | 0 <= i < |all| && LastOf(all, i)
      ensures all[i].key in t[o.key := o.spec] && t[o.key := o.spec][all[i].key] == all[i].spec
    {
      if i < |objs| {
        assert all[|objs|] == o && all[i].key != o.key;
        assert forall j | i < j < |objs| :: all[j] == objs[j];
        assert LastOf(objs, i);
      }
    }
  }

  /** Applying writes every object as it is, the last one of each key, and touches nothing else. */
  lemma {:induction false} AppliedMeans(t: Table, objs: seq<Obj>)
    ensures WrittenOver(t, objs, Applied(t, objs))
  {
    if objs != [] {
      var before, last := objs[..|objs| - 1], objs[|objs| - 1];
      AppliedMeans(t, before);
      assert objs == before + [last];
      HoldsAllSnoc(Applied(t, before), before, last);
      forall k
        ensures HasKey(objs, k) <==> HasKey(before, k) || last.key == k
      {
        HasKeySnoc(before, last, k);
      }
    }
  }

  lemma {:induction false} PrefixKeys(objs: seq<Obj>, n: nat)
    requires n <= |objs|
    ensures Wanted(objs[..n]).Keys <= Wanted(objs).Keys
    decreases |objs|
  {
    if n == |objs| {
      assert objs[..n] == objs;
    } else {
      PrefixKeys(objs[..|objs| - 1], n);
      assert objs[..|objs| - 1][..n] == objs[..n];
    }
  }

  function Stale(t: Table, desired: seq<Obj>): set<ObjectKey> {
    t.Keys - Wanted(desired).Keys
  }

  /** The cluster after one reconcile, deleting in the given order. */
  function After(t: Table, desired: seq<Obj>, order: seq<ObjectKey>, fault: Fault): Table {
    match fault
    case ListFails => t
    case ApplyFails(at, took) =>
      if at < |desired| then Applied(t, desired[..if took then at + 1 else at])
      else Applied(t, desired) - Elems(order)
    case DeleteFails(at, took) =>
      if at < |order| then Applied(t, desired) - Elems(order[..if took then at + 1 else at])
      else Applied(t, desired) - Elems(order)
    case NoFault => Applied(t, desired) - Elems(order)
  }

  function Verdict(desired: seq<Obj>, order: seq<ObjectKey>, fault: Fault): Outcome {
    match fault
    case ListFails => ListError
    case ApplyFails(at, _) => if at < |desired| then ApplyError else Done
    case DeleteFails(at, _) => if at < |order| then DeleteError else Done
    case NoFault => Done
  }

  /** Every object the table holds is there, as it is. */
  predicate Includes(t: Table, wanted: Table) {
    forall k | k in wanted :: k in t && t[k] == wanted[k]
  }

  lemma KeysBeforeBreak(t: Table, desired: seq<Obj>, order: seq<ObjectKey>, fault: Fault)
    requires Enumerates(order, Stale(t, desired))
    ensures var t' := After(t, desired, order, fault);
            && (t.Keys <= t'.Keys || Includes(t', Wanted(desired)))
            && t.Keys - Stale(t, desired) <= t'.Keys
            && t'.Keys <= t.Keys + Wanted(desired).Keys
            && (Verdict(desired, order, fault).DeleteError? ==> Includes(t', Wanted(desired)))
  {
    AppliedIsUnion(t, desired);
    match fault
    case ApplyFails(at, took) =>
      if at < |desired| {
        var n := if took then at + 1 else at;
        AppliedIsUnion(t, desired[..n]);
        PrefixKeys(desired, n);
      }
    case DeleteFails(at, took) =>
      if at < |order| {
        assert forall k | k in order[..if took then at + 1 else at] :: k in order;
      }
    case _ =>
  }

  lemma IncludesHolds(t: Table, desired: seq<Obj>)
    requires Includes(t, Wanted(desired))
    ensures HoldsAll(t, desired)
  {
    AppliedMeans(map[], desired);
    forall i | 0 <= i < |desired| && LastOf(desired, i)
      ensures desired[i].key in t && t[desired[i].key] == desired[i].spec
    {
      assert desired[i].key in Wanted(desired);
    }
  }

  /** Whatever fails and wherever: either nothing has been deleted, or every desired object is in place as desired; and
      nothing but stale objects ever goes. */
  lemma MakeBeforeBreak(t: Table, desired: seq<Obj>, order: seq<ObjectKey>, fault: Fault)
    requires Enumerates(order, Stale(t, desired))
    ensures var t' := After(t, desired, order, fault);
            && (t.Keys <= t'.Keys || HoldsAll(t', desired))
            && (Verdict(desired, order, fault).DeleteError? ==> HoldsAll(t', desired))
            && (forall k | k in t && HasKey(desired, k) :: k in t')
            && (forall k | k in t' && k !in t :: HasKey(desired, k))
  {
    KeysBeforeBreak(t, desired, order, fault);
    WantedKeys(desired);
    var t' := After(t, desired, order, fault);
    if Includes(t', Wanted(desired)) {
      IncludesHolds(t', desired);
    }
  }

  lemma WantedKeys(desired: seq<Obj>)
    ensures forall k :: k in Wanted(desired) <==> HasKey(desired, k)
  {
    AppliedMeans(map[], desired);
  }

  /** A reconcile that is done leaves exactly the desired objects, from whatever state an earlier failure left; so a
      second one changes nothing. */
  lemma DoneIsExact(t: Table, desired: seq<Obj>, order: seq<ObjectKey>, fault: Fault)
    requires Enumerates(order, Stale(t, desired))
    ensures Verdict(desired, order, fault).Done? ==> After(t, desired, order, fault) == Wanted(desired)
    ensures WrittenOver(map[], desired, Wanted(desired))
    ensures Stale(Wanted(desired), desired) == {}
    ensures After(Wanted(desired), desired, [], NoFault) == Wanted(desired)
  {
    AppliedIsUnion(t, desired);
    AppliedIsUnion(Wanted(desired), desired);
    AppliedMeans(map[], desired);
    assert Elems(order) == Stale(t, desired);
  }

  /** How far a reconcile got, in terms of the objects. Done: the cluster holds the desired objects and nothing else. An
      apply error: those up to the failing one are written over what was there. A delete error: all of them are, and the
      stale objects up to the failing one are gone. A list error: nothing changed. */
  ghost predicate StoppedAt(t: Table, t': Table, desired: seq<Obj>, order: seq<ObjectKey>, fault: Fault, outcome: Outcome) {
    match outcome
    case Done => WrittenOver(map[], desired, t')
    case ListError => fault == ListFails && t' == t
    case ApplyError =>
      && fault.ApplyFails? && fault.at < |desired|
      && WrittenOver(t, desired[..if fault.took then fault.at + 1 else fault.at], t')
    case DeleteError =>
      && fault.DeleteFails? && fault.at < |order|
      && (forall k :: k in t' <==> (k in t || HasKey(desired, k)) && k !in order[..if fault.took then fault.at + 1 else fault.at])
      && HoldsAll(t', desired)
  }

  lemma DeleteStops(t: Table, desired: seq<Obj>, order: seq<ObjectKey>, fault: Fault)
    requires Enumerates(order, Stale(t, desired)) && fault.DeleteFails? && fault.at < |order|
    ensures var t' := After(t, desired, order, fault);
            && (forall k :: k in t' <==> (k in t || HasKey(desired, k)) && k !in order[..if fault.took then fault.at + 1 else fault.at])
            && HoldsAll(t', desired)
  {
    AppliedMeans(t, desired);
    MakeBeforeBreak(t, desired, order, fault);
  }

  lemma AfterStops(t: Table, desired: seq<Obj>, order: seq<ObjectKey>, fault: Fault)
    requires Enumerates(order, Stale(t, desired))
    ensures StoppedAt(t, After(t, desired, order, fault), desired, order, fault, Verdict(desired, order, fault))
  {
    var outcome := Verdict(desired, order, fault);
    if outcome.Done? {
      DoneIsExact(t, desired, order, fault);
    } else if outcome.ApplyError? {
      AppliedMeans(t, desired[..if fault.took then fault.at + 1 else fault.at]);
    } else if outcome.DeleteError? {
      DeleteStops(t, desired, order, fault);
    }
  }

  /** Conversely a failing call is reported if it was reached. */
  lemma VerdictMeans(desired: seq<Obj>, order: seq<ObjectKey>, fault: Fault)
    ensures Verdict(desired, order, fault).Done? <==>
            || fault == NoFault
            || (fault.ApplyFails? && fault.at >= |desired|)
            || (fault.DeleteFails? && fault.at >= |order|)
  {
  }

  // ------------------------------------------------------------ several clusters

  /** A rank compiles to one object; its home is the cluster its environment names, if it names one. */
  datatype Rank = Rank(home: Option<ClusterKey>, obj: Obj)

  function ClusterOf(default: Option<ClusterKey>, r: Rank): Option<ClusterKey> {
    if default.Some? then default else r.home
  }

  /** The objects that belong on cluster `key`, in rank order. */
  function Group(default: Option<ClusterKey>, ranks: seq<Rank>, key: ClusterKey): seq<Obj> {
    if ranks == [] then []
    else Group(default, ranks[..|ranks| - 1], key)
         + (if ClusterOf(default, ranks[|ranks| - 1]) == Some(key) then [ranks[|ranks| - 1].obj] else [])
  }

  /** The i-th object of a group comes from rank `position[i]`; in rank order, and from every rank whose cluster it is,
      the default one if there is one and else the one its environment names. */
  lemma {:induction false} GroupMeans(default: Option<ClusterKey>, ranks: seq<Rank>, key: ClusterKey) returns (position: seq<nat>)
    ensures |position| == |Group(default, ranks, key)|
    ensures forall i | 0 <= i < |position| :: position[i] < |ranks| && Group(default, ranks, key)[i] == ranks[position[i]].obj
    ensures forall i, j | 0 <= i < j < |position| :: position[i] < position[j]
    ensures forall n: nat | n < |ranks| :: n in position <==> (if default.Some? then default else ranks[n].home) == Some(key)
  {
    if ranks == [] {
      position := [];
    } else {
      var m := |ranks| - 1;
      var before := GroupMeans(default, ranks[..m], key);
      position := before + (if ClusterOf(default, ranks[m]) == Some(key) then [m] else []);
      assert forall n: nat | n < m :: ranks[..m][n] == ranks[n];
      forall n: nat | n < m
        ensures n in position <==> (if default.Some? then default else ranks[n].home) == Some(key)
      {
        assert n in position <==> n in before;
      }
    }
  }

  predicate Placeable(default: Option<ClusterKey>, ranks: seq<Rank>, names: seq<ClusterKey>) {
    forall r | r in ranks :: ClusterOf(default, r).Some? && ClusterOf(default, r).value in names
  }

  /** The clusters at some moment of a pass, or after a failure ended it: in launcher order those before `n` are
      exact, `n` is where its own reconcile, deleting in the given order, has got to or stopped, those after it are as
      they were. Each point inside the reconcile of one cluster is where some fault would have stopped it. */
  function Moment(ts: seq<Table>, desired: seq<seq<Obj>>, n: nat, order: seq<ObjectKey>, fault: Fault): seq<Table>
    requires n < |ts| == |desired|
  {
    seq(|ts|, i requires 0 <= i < |ts| =>
      if i < n then Wanted(desired[i]) else if i == n then After(ts[n], desired[n], order, fault) else ts[i])
  }

  predicate Somewhere(ts: seq<Table>, k: ObjectKey) {
    exists i :: 0 <= i < |ts| && k in ts[i]
  }

  /** At every moment of every pass, faulty or not. */
  ghost predicate AlwaysSomewhere(ts: seq<Table>, desired: seq<seq<Obj>>, k: ObjectKey)
    requires |ts| == |desired|
  {
    forall n: nat, order: seq<ObjectKey>, fault ::
      n < |ts| && Enumerates(order, Stale(ts[n], desired[n])) ==> Somewhere(Moment(ts, desired, n, order, fault), k)
  }

  /** A pass without a fault leaves the object on `b` and not on `a`, in whatever order it deletes. */
  predicate EndsMoved(ts: seq<Table>, desired: seq<seq<Obj>>, order: seq<ObjectKey>, k: ObjectKey, a: nat, b: nat)
    requires a < |ts| == |desired| && b < |ts|
  {
    var last := |ts| - 1;
    Enumerates(order, Stale(ts[last], desired[last])) ==>
      var end := Moment(ts, desired, last, order, NoFault);
      k !in end[a] && k in end[b]
  }

  lemma HasOrder<T>(S: set<T>) returns (s: seq<T>)
    ensures Enumerates(s, S)
  {
    if S == {} {
      s := [];
    } else {
      var x :| x in S;
      s := HasOrder(S - {x});
      NoDupAppend(s, [x]);
      s := s + [x];
    }
  }

  lemma DoneKeys(t: Table, desired: seq<Obj>, order: seq<ObjectKey>, k: ObjectKey)
    requires Enumerates(order, Stale(t, desired))
    ensures k in After(t, desired, order, NoFault) <==> k in Wanted(desired)
  {
    DoneIsExact(t, desired, order, NoFault);
  }

  lemma Witnessed(ts: seq<Table>, i: nat, k: ObjectKey)
    requires i < |ts| && k in ts[i]
    ensures Somewhere(ts, k)
  {
  }

  /** Make-before-break holds within a cluster, not across clusters: an object that moves from cluster `a` to cluster
      `b` exists somewhere at every moment, whatever fails, if and only if `b` comes first in launcher order. */
  lemma MoveIsCoveredIffDestinationFirst(ts: seq<Table>, desired: seq<seq<Obj>>, k: ObjectKey, a: nat, b: nat)
    requires a < |ts| == |desired| && b < |ts| && a != b
    requires forall i | 0 <= i < |ts| :: k in ts[i] <==> i == a
    requires forall i | 0 <= i < |ts| :: k in Wanted(desired[i]) <==> i == b
    ensures AlwaysSomewhere(ts, desired, k) <==> b < a
    ensures forall order :: EndsMoved(ts, desired, order, k, a, b)
  {
    forall order
      ensures EndsMoved(ts, desired, order, k, a, b)
    {
      if Enumerates(order, Stale(ts[|ts| - 1], desired[|ts| - 1])) {
        DoneKeys(ts[|ts| - 1], desired[|ts| - 1], order, k);
      }
    }
    if b < a {
      forall n: nat, order: seq<ObjectKey>, fault | n < |ts| && Enumerates(order, Stale(ts[n], desired[n]))
        ensures Somewhere(Moment(ts, desired, n, order, fault), k)
      {
        Witnessed(Moment(ts, desired, n, order, fault), if n <= b then a else b, k);
      }
    } else {
      var order := HasOrder(Stale(ts[a], desired[a]));
      DoneKeys(ts[a], desired[a], order, k);
      assert !Somewhere(Moment(ts, desired, a, order, NoFault), k);
    }
  }

  // ------------------------------------------------------------------- the code

  class KubeClient {
    var objects: Table

    constructor (objects: Table)
      ensures this.objects == objects
    {
      this.objects := objects;
    }
  }

  class DynamoLauncher {
    const k8s: KubeClient

    constructor (k8s: KubeClient)
      ensures this.k8s == k8s
    {
      this.k8s := k8s;
    }

    method Reconcile(desired: seq<Obj>, fault: Fault) returns (outcome: Outcome, ghost order: seq<ObjectKey>)
      modifies k8s
      ensures Enumerates(order, Stale(old(k8s.objects), desired))
      ensures outcome == Verdict(desired, order, fault)
      ensures k8s.objects == After(old(k8s.objects), desired, order, fault)
    {
      ghost var t := k8s.objects;
      var wanted := Wanted(desired);
      var stale := k8s.objects.Keys - wanted.Keys;
      var keys := Members(stale);
      order := keys;
      if fault == ListFails {
        return ListError, order;
      }
      var i := 0;
      while i < |desired|
        invariant 0 <= i <= |desired|
        invariant fault.ApplyFails? ==> i <= fault.at
        invariant k8s.objects == Applied(t, desired[..i])
      {
        assert desired[..i + 1][..i] == desired[..i];
        if fault.ApplyFails? && fault.at == i && !fault.took {
          return ApplyError, order;
        }
        k8s.objects := k8s.objects[desired[i].key := desired[i].spec];
        if fault.ApplyFails? && fault.at == i {
          return ApplyError, order;
        }
        i := i + 1;
      }
      assert desired[..i] == desired;
      i := 0;
      while i < |keys|
        invariant 0 <= i <= |keys|
        invariant fault.DeleteFails? ==> i <= fault.at
        invariant k8s.objects == Applied(t, desired) - Elems(keys[..i])
      {
        assert Elems(keys[..i + 1]) == Elems(keys[..i]) + {keys[i]};
        if fault.DeleteFails? && fault.at == i && !fault.took {
          return DeleteError, order;
        }
        k8s.objects := k8s.objects - {keys[i]};
        if fault.DeleteFails? && fault.at == i {
          return DeleteError, order;
        }
        i := i + 1;
      }
      assert keys[..i] == keys;
      return Done, order;
    }
  }

  class MultiClusterLauncher {
    const names: seq<ClusterKey>
    const launchers: seq<DynamoLauncher>
    const default: Option<ClusterKey>

    /** One launcher per name, each with a client of its own. */
    ghost predicate Valid() {
      && |names| == |launchers| && NoDup(names)
      && forall i, j | 0 <= i < j < |launchers| :: launchers[i].k8s != launchers[j].k8s
    }

    constructor (names: seq<ClusterKey>, launchers: seq<DynamoLauncher>, default: Option<ClusterKey>)
      ensures this.names == names && this.launchers == launchers && this.default == default
    {
      this.names, this.launchers, this.default := names, launchers, default;
    }

    ghost function Clients(): set<KubeClient> {
      set i | 0 <= i < |launchers| :: launchers[i].k8s
    }

    /** None is the ValueError for a rank whose cluster is missing or unknown. */
    method GroupRanks(ranks: seq<Rank>) returns (groups: Option<map<ClusterKey, seq<Obj>>>)
      ensures groups.Some? <==> Placeable(default, ranks, names)
      ensures groups.Some? <==> forall r | r in ranks ::
                if default.Some? then default.value in names else r.home.Some? && r.home.value in names
      ensures groups.Some? ==> forall key | key in names :: key in groups.value && groups.value[key] == Group(default, ranks, key)
    {
      var g: map<ClusterKey, seq<Obj>> := map key | key in names :: [];
      var i := 0;
      while i < |ranks|
        invariant 0 <= i <= |ranks|
        invariant forall r | r in ranks[..i] :: ClusterOf(default, r).Some? && ClusterOf(default, r).value in names
        invariant forall key :: key in g <==> key in names
        invariant forall key | key in names :: g[key] == Group(default, ranks[..i], key)
      {
        var r := ranks[i];
        assert ranks[..i + 1][..i] == ranks[..i];
        assert ranks[..i + 1] == ranks[..i] + [r];
        var key := ClusterOf(default, r);
        if key == None || key.value !in g {
          return None;
        }
        g := g[key.value := g[key.value] + [r.obj]];
        i := i + 1;
      }
      assert ranks[..i] == ranks;
      return Some(g);
    }

    /** Launchers in order until one fails: those before it are exact, it is left as its own reconcile left it, and
        those after it, or all of them when a rank cannot be placed, are untouched. */
    method Reconcile(ranks: seq<Rank>, faults: seq<Fault>) returns (reached: Option<nat>, ghost order: seq<ObjectKey>)
      requires Valid() && |faults| == |launchers|
      modifies Clients()
      ensures reached == None <==> !Placeable(default, ranks, names)
      ensures reached == None ==> forall i | 0 <= i < |launchers| :: launchers[i].k8s.objects == old(launchers[i].k8s.objects)
      ensures reached.Some? ==> reached.value <= |launchers|
      ensures reached.Some? ==> forall i | 0 <= i < reached.value ::
                launchers[i].k8s.objects == Wanted(Group(default, ranks, names[i]))
      ensures reached.Some? && reached.value < |launchers| ==>
                var n := reached.value;
                var desired := Group(default, ranks, names[n]);
                && Enumerates(order, Stale(old(launchers[n].k8s.objects), desired))
                && launchers[n].k8s.objects == After(old(launchers[n].k8s.objects), desired, order, faults[n])
                && !Verdict(desired, order, faults[n]).Done?
      ensures reached.Some? ==> forall i | reached.value < i < |launchers| ::
                launchers[i].k8s.objects == old(launchers[i].k8s.objects)
      ensures (forall i | 0 <= i < |faults| :: faults[i].NoFault?) && Placeable(default, ranks, names) ==>
                reached == Some(|launchers|)
    {
      order := [];
      var groups := GroupRanks(ranks);
      if groups == None {
        return None, order;
      }
      var i := 0;
      while i < |launchers|
        invariant 0 <= i <= |launchers|
        invariant forall j | 0 <= j < i :: launchers[j].k8s.objects == Wanted(Group(default, ranks, names[j]))
        invariant forall j | i <= j < |launchers| :: launchers[j].k8s.objects == old(launchers[j].k8s.objects)
      {
        assert launchers[i].k8s in Clients();
        var desired := groups.value[names[i]];
        var outcome;
        outcome, order := launchers[i].Reconcile(desired, faults[i]);
        if outcome != Done {
          return Some(i), order;
        }
        DoneIsExact(old(launchers[i].k8s.objects), desired, order, faults[i]);
        i := i + 1;
      }
      return Some(i), order;
    }
  }
}
