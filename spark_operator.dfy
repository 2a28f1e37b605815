/** The custom-resource cluster operator (`SparkClusterOperator`): its registry
    of deployed clusters, the watch callbacks `onAdd`, `onDelete`, `onModify`,
    the scale-or-recreate decision `isOnlyScale`, and the periodic
    `fullReconciliation` that compares the declared clusters with the worker
    replica counts observed in the namespace. */
module SparkOperator {
  import opened ClusterTypes
  import opened ApiEffects

  /** The registry (`RunningClusters`): cluster name to the cluster the operator believes deployed. */
  type Registry = map<string, SparkCluster>

  type Log = seq<Effect<SparkCluster>>

  /** Observed worker replica counts by cluster name (`getActual`). */
  type Actual = map<string, int>

  datatype OperatorState = OperatorState(clusters: Registry, effects: Log)

  // ---------------------------------------------------------------------------
  // Watch callbacks

  /** `isOnlyScale`: the source sets `newC`'s worker count to `oldC`'s, compares
      the whole records, and restores the count; comparing against a copy of
      `newC` carrying `oldC`'s count is the same test and leaves `newC` as it was. */
  function IsOnlyScale(oldC: SparkCluster, newC: SparkCluster): (r: bool)
    ensures r <==> oldC.worker.instances != newC.worker.instances && SameButWorkerCount(oldC, newC)
  {
    var retVal := oldC.worker.instances != newC.worker.instances;
    var masked := WithWorkerInstances(newC, oldC.worker.instances);
    retVal && oldC == masked
  }

  /** `onAdd`: create-or-replace the cluster's resources, then file it in the registry. */
  function Added(st: OperatorState, c: SparkCluster): (r: OperatorState)
    ensures c.name in r.clusters && r.clusters[c.name] == c
    ensures forall n :: n != c.name ==> (n in r.clusters <==> n in st.clusters)
    ensures forall n :: n != c.name && n in st.clusters ==> r.clusters[n] == st.clusters[n]
    ensures r.effects == st.effects + [CreateOrReplace(c)]
  {
    OperatorState(st.clusters[c.name := c], st.effects + [CreateOrReplace(c)])
  }

  /** `onDelete`: delete services, replication controllers and pods carrying the
      cluster's labels, then forget the cluster. Only the name of `c` is read. */
  function Deleted(st: OperatorState, c: SparkCluster): (r: OperatorState)
    ensures c.name !in r.clusters
    ensures forall n :: n != c.name ==> (n in r.clusters <==> n in st.clusters)
    ensures forall n :: n != c.name && n in st.clusters ==> r.clusters[n] == st.clusters[n]
    ensures r.effects == st.effects + DeleteAllKinds(c.name)
  {
    OperatorState(st.clusters - {c.name}, st.effects + DeleteAllKinds(c.name))
  }

  /** `onModify`: nothing for a cluster the registry does not know; a scale of the
      worker replication controller, leaving the registry as it is, when only the
      worker count changed; otherwise the same as `onAdd`. */
  function Modified(st: OperatorState, newC: SparkCluster): (r: OperatorState)
    ensures newC.name !in st.clusters ==> r == st
    ensures newC.name in st.clusters && IsOnlyScale(st.clusters[newC.name], newC) ==>
      r.clusters == st.clusters && r.effects == st.effects + [Scale(WorkerRcName(newC.name), newC.worker.instances)]
    ensures newC.name in st.clusters && !IsOnlyScale(st.clusters[newC.name], newC) ==>
      r == Added(st, newC)
  {
    if newC.name !in st.clusters then st
    else if IsOnlyScale(st.clusters[newC.name], newC) then
      st.(effects := st.effects + [Scale(WorkerRcName(newC.name), newC.worker.instances)])
    else Added(st, newC)
  }

  /** The two paths of `onModify` for a known cluster, in terms of what changed:
      exactly one scale of `<name>-w` to the new count with the registry untouched
      when only the worker count differs, one create-or-replace and a registry
      entry equal to the new cluster otherwise. */
  lemma ModifiedPaths(st: OperatorState, newC: SparkCluster)
    requires newC.name in st.clusters
    ensures var prev := st.clusters[newC.name];
      prev.worker.instances != newC.worker.instances && SameButWorkerCount(prev, newC) ==>
        Modified(st, newC) == OperatorState(st.clusters, st.effects + [Scale(newC.name + "-w", newC.worker.instances)])
    ensures var prev := st.clusters[newC.name];
      !(prev.worker.instances != newC.worker.instances && SameButWorkerCount(prev, newC)) ==>
        Modified(st, newC).clusters == st.clusters[newC.name := newC] &&
        Modified(st, newC).effects == st.effects + [CreateOrReplace(newC)]
  {
  }

  /** Re-sending an unchanged cluster recreates it and leaves the registry as it was. */
  lemma ModifiedUnchanged(st: OperatorState, c: SparkCluster)
    requires c.name in st.clusters && st.clusters[c.name] == c
    ensures Modified(st, c).clusters == st.clusters
    ensures Modified(st, c).effects == st.effects + [CreateOrReplace(c)]
  {
    assert st.clusters[c.name := c] == st.clusters;
  }

  /** Since the scale path leaves the registry entry at the old count, scaling a
      cluster to another count and then back to the count it had takes the
      recreate path the second time. */
  lemma ModifiedScaleBackRecreates(st: OperatorState, c: SparkCluster, n: int)
    requires c.name in st.clusters && st.clusters[c.name] == c
    requires n != c.worker.instances
    ensures var st1 := Modified(st, WithWorkerInstances(c, n));
      && st1.clusters == st.clusters
      && st1.effects == st.effects + [Scale(WorkerRcName(c.name), n)]
      && Modified(st1, c).effects == st1.effects + [CreateOrReplace(c)]
  {
    var up := WithWorkerInstances(c, n);
    assert IsOnlyScale(c, up);
    assert !IsOnlyScale(c, c);
  }

  /** A cluster added and then deleted leaves no trace in the registry. */
  lemma AddedThenDeleted(st: OperatorState, c: SparkCluster)
    ensures Deleted(Added(st, c), c).clusters == st.clusters - {c.name}
    ensures Deleted(Added(st, c), c).effects == st.effects + [CreateOrReplace(c)] + DeleteAllKinds(c.name)
  {
  }

  // ---------------------------------------------------------------------------
  // Full reconciliation, as folds over the orders in which the sets are visited

  ghost predicate Distinct(xs: seq<string>) {
    forall i, j :: 0 <= i < j < |xs| ==> xs[i] != xs[j]
  }

  /** `xs` visits every element of `s` exactly once: one iteration order of a Java set. */
  ghost predicate Enumerates(xs: seq<string>, s: set<string>) {
    Distinct(xs) && forall x :: x in xs <==> x in s
  }

  /** Declared clusters with no observed worker replication controller. */
  function ToBeCreated(desired: Registry, actual: Actual): set<string> {
    desired.Keys - actual.Keys
  }

  /** Observed worker replication controllers with no declared cluster. */
  function ToBeDeleted(desired: Registry, actual: Actual): set<string> {
    actual.Keys - desired.Keys
  }

  /** A declared and observed cluster whose observed worker count differs from the declared one. */
  predicate Drifts(desired: Registry, actual: Actual, n: string) {
    n in desired && n in actual && desired[n].worker.instances != actual[n]
  }

  /** Created and deleted names are disjoint, and no created or deleted name drifts. */
  lemma CreatedDeletedDisjoint(desired: Registry, actual: Actual)
    ensures ToBeCreated(desired, actual) * ToBeDeleted(desired, actual) == {}
    ensures forall n :: n in ToBeCreated(desired, actual) ==> !Drifts(desired, actual, n)
    ensures forall n :: n in ToBeDeleted(desired, actual) ==> !Drifts(desired, actual, n)
  {
  }

  /** `onAdd` of the desired cluster of every name in `names`, in order. */
  function AddAll(st: OperatorState, names: seq<string>, desired: Registry): OperatorState
    requires forall n :: n in names ==> n in desired
  {
    if names == [] then st
    else Added(AddAll(st, names[..|names| - 1], desired), desired[names[|names| - 1]])
  }

  /** `onDelete` of a name-only cluster for every name in `names`, in order. */
  function DeleteAll(st: OperatorState, names: seq<string>): OperatorState {
    if names == [] then st
    else Deleted(DeleteAll(st, names[..|names| - 1]), NameOnly(names[|names| - 1]))
  }

  /** The registry a drift repair hands to `onModify`: the cluster's entry, or a
      copy of the desired cluster when there is none, with the observed count. */
  function AdoptActual(reg: Registry, d: SparkCluster, observed: int): Registry {
    reg[d.name := WithWorkerInstances(if d.name in reg then reg[d.name] else d, observed)]
  }

  /** One visit of the drift-repair loop. */
  function DriftStep(st: OperatorState, d: SparkCluster, actual: Actual): OperatorState {
    if d.name in actual && d.worker.instances != actual[d.name] then
      Modified(st.(clusters := AdoptActual(st.clusters, d, actual[d.name])), d)
    else st
  }

  /** The drift-repair loop over the desired clusters named in `names`, in order. */
  function RepairAll(st: OperatorState, names: seq<string>, desired: Registry, actual: Actual): OperatorState
    requires forall n :: n in names ==> n in desired
  {
    if names == [] then st
    else DriftStep(RepairAll(st, names[..|names| - 1], desired, actual), desired[names[|names| - 1]], actual)
  }

  /** The state after one reconciliation pass in a namespace other than `*`, given the
      orders in which the created, deleted and desired names are visited. */
  function Reconciled(st: OperatorState, desired: Registry, actual: Actual, firstRun: bool,
                      created: seq<string>, deleted: seq<string>, visited: seq<string>): OperatorState
    requires forall n :: n in created ==> n in desired
    requires forall n :: n in visited ==> n in desired
  {
    var repaired := RepairAll(DeleteAll(AddAll(st, created, desired), deleted), visited, desired, actual);
    OperatorState(if firstRun then repaired.clusters + desired else repaired.clusters,
                  repaired.effects + [CountReconciliation])
  }

  // ---------------------------------------------------------------------------
  // What a pass does, in closed form

  /** The create-or-replace calls for `names`, in order. */
  function CreateEffects(names: seq<string>, desired: Registry): (r: Log)
    requires forall n :: n in names ==> n in desired
    ensures |r| == |names|
    ensures forall i :: 0 <= i < |names| ==> r[i] == CreateOrReplace(desired[names[i]])
  {
    if names == [] then []
    else CreateEffects(names[..|names| - 1], desired) + [CreateOrReplace(desired[names[|names| - 1]])]
  }

  /** The label-selected deletions for `names`: services, replication controllers
      and pods of the first name, then of the second, and so on. */
  function DeleteEffects(names: seq<string>): (r: Log)
    ensures |r| == 3 * |names|
    ensures forall i :: 0 <= i < |r| ==> r[i].DeleteByLabels? && r[i].clusterName in names
  {
    if names == [] then []
    else DeleteEffects(names[..|names| - 1]) + DeleteAllKinds(names[|names| - 1])
  }

  /** The deletions of the name at position `i` occupy positions `3 * i` to `3 * i + 2`. */
  lemma {:induction false} DeleteEffectsBlock(names: seq<string>, i: int)
    requires 0 <= i < |names|
    ensures DeleteEffects(names)[3 * i..3 * i + 3] == DeleteAllKinds(names[i])
  {
    var init := names[..|names| - 1];
    var r := DeleteEffects(names);
    assert r == DeleteEffects(init) + DeleteAllKinds(names[|names| - 1]);
    if i < |init| {
      DeleteEffectsBlock(init, i);
      assert r[3 * i..3 * i + 3] == DeleteEffects(init)[3 * i..3 * i + 3];
    } else {
      assert r[3 * i..3 * i + 3] == DeleteAllKinds(names[|names| - 1]);
    }
  }

  /** What the repair of a drifted desired cluster `d` calls, given the registry
      before the pass reached it: a recreate when the registry knows a cluster of
      that name that differs from `d` in more than the worker count, a scale of the
      worker replication controller to the desired count otherwise. */
  function RepairEffect(reg: Registry, d: SparkCluster): Effect<SparkCluster> {
    if d.name in reg && !SameButWorkerCount(reg[d.name], d) then CreateOrReplace(d)
    else Scale(WorkerRcName(d.name), d.worker.instances)
  }

  /** The registry entry the repair of a drifted `d` leaves: `d` itself after a
      recreate, the previous entry (or a copy of `d`) with the observed count after
      a scale. */
  function RepairedEntry(reg: Registry, d: SparkCluster, observed: int): SparkCluster {
    if d.name in reg && !SameButWorkerCount(reg[d.name], d) then d
    else WithWorkerInstances(if d.name in reg then reg[d.name] else d, observed)
  }

  /** The calls of the drift-repair loop over `names`, one per drifted name, in order. */
  function RepairEffects(reg: Registry, names: seq<string>, desired: Registry, actual: Actual): Log
    requires forall n :: n in names ==> n in desired
  {
    if names == [] then []
    else
      var n := names[|names| - 1];
      RepairEffects(reg, names[..|names| - 1], desired, actual)
      + (if Drifts(desired, actual, n) then [RepairEffect(reg, desired[n])] else [])
  }

  /** One drifted cluster is repaired with exactly one call. A cluster the registry
      does not know is first filed as a copy with the observed count, so `onModify`
      takes the scale path to the desired count. */
  lemma DriftStepOutcome(st: OperatorState, d: SparkCluster, actual: Actual)
    requires d.name in actual && d.worker.instances != actual[d.name]
    ensures DriftStep(st, d, actual) ==
      OperatorState(st.clusters[d.name := RepairedEntry(st.clusters, d, actual[d.name])],
                    st.effects + [RepairEffect(st.clusters, d)])
    ensures d.name !in st.clusters ==>
      RepairEffect(st.clusters, d) == Scale(WorkerRcName(d.name), d.worker.instances) &&
      RepairedEntry(st.clusters, d, actual[d.name]) == WithWorkerInstances(d, actual[d.name])
  {
    var observed := actual[d.name];
    var base := if d.name in st.clusters then st.clusters[d.name] else d;
    var adopted := WithWorkerInstances(base, observed);
    assert IsOnlyScale(adopted, d) <==> SameButWorkerCount(base, d);
  }

  lemma {:induction false} AddAllEffects(st: OperatorState, names: seq<string>, desired: Registry)
    requires forall n :: n in names ==> n in desired
    ensures AddAll(st, names, desired).effects == st.effects + CreateEffects(names, desired)
  {
    if names != [] {
      var init := names[..|names| - 1];
      AddAllEffects(st, init, desired);
      var e := [CreateOrReplace(desired[names[|names| - 1]])];
      assert AddAll(st, names, desired).effects == AddAll(st, init, desired).effects + e;
      assert CreateEffects(names, desired) == CreateEffects(init, desired) + e;
    }
  }

  lemma {:induction false} AddAllRegistry(st: OperatorState, names: seq<string>, desired: Registry)
    requires KeyedByName(desired)
    requires forall n :: n in names ==> n in desired
    ensures forall n :: n in names ==> n in AddAll(st, names, desired).clusters && AddAll(st, names, desired).clusters[n] == desired[n]
    ensures forall n :: n !in names ==> (n in AddAll(st, names, desired).clusters <==> n in st.clusters)
    ensures forall n :: n !in names && n in st.clusters ==> AddAll(st, names, desired).clusters[n] == st.clusters[n]
  {
    if names != [] {
      var init, last := names[..|names| - 1], names[|names| - 1];
      AddAllRegistry(st, init, desired);
      var prev, r := AddAll(st, init, desired), AddAll(st, names, desired);
      assert r == Added(prev, desired[last]);
      assert desired[last].name == last;
      forall n | n in names ensures n in r.clusters && r.clusters[n] == desired[n] {
        if n != last {
          assert n in init;
        }
      }
    }
  }

  lemma {:induction false} DeleteAllOutcome(st: OperatorState, names: seq<string>)
    ensures DeleteAll(st, names).effects == st.effects + DeleteEffects(names)
    ensures forall n :: n in names ==> n !in DeleteAll(st, names).clusters
    ensures forall n :: n !in names ==> (n in DeleteAll(st, names).clusters <==> n in st.clusters)
    ensures forall n :: n !in names && n in st.clusters ==> DeleteAll(st, names).clusters[n] == st.clusters[n]
  {
    if names != [] {
      var init := names[..|names| - 1];
      DeleteAllOutcome(st, init);
      assert forall n :: n in names ==> n in init || n == names[|names| - 1];
    }
  }

  /** The drift-repair loop over distinct names: one call per drifted name, each
      decided on the registry as it was before the loop, and a registry in which
      exactly the drifted names changed. */
  lemma {:induction false} RepairAllOutcome(st: OperatorState, names: seq<string>, desired: Registry, actual: Actual)
    requires KeyedByName(desired)
    requires forall n :: n in names ==> n in desired
    requires Distinct(names)
    ensures RepairAll(st, names, desired, actual).effects == st.effects + RepairEffects(st.clusters, names, desired, actual)
    ensures forall n :: n in names && Drifts(desired, actual, n) ==>
      n in RepairAll(st, names, desired, actual).clusters &&
      RepairAll(st, names, desired, actual).clusters[n] == RepairedEntry(st.clusters, desired[n], actual[n])
    ensures forall n :: !(n in names && Drifts(desired, actual, n)) ==>
      (n in RepairAll(st, names, desired, actual).clusters <==> n in st.clusters)
    ensures forall n :: !(n in names && Drifts(desired, actual, n)) && n in st.clusters ==>
      RepairAll(st, names, desired, actual).clusters[n] == st.clusters[n]
  {
    if names != [] {
      var init, last := names[..|names| - 1], names[|names| - 1];
      assert Distinct(init);
      RepairAllOutcome(st, init, desired, actual);
      var prev := RepairAll(st, init, desired, actual);
      var d := desired[last];
      assert d.name == last;
      assert last !in init;
      assert forall n :: n in names ==> n in init || n == last;
      if Drifts(desired, actual, last) {
        DriftStepOutcome(prev, d, actual);
        assert RepairEffect(prev.clusters, d) == RepairEffect(st.clusters, d);
        assert RepairedEntry(prev.clusters, d, actual[last]) == RepairedEntry(st.clusters, d, actual[last]);
      }
    }
  }

  /** The repair calls depend on the registry only at the drifted names. */
  lemma {:induction false} RepairEffectsAgree(reg: Registry, reg': Registry, names: seq<string>, desired: Registry, actual: Actual)
    requires KeyedByName(desired)
    requires forall n :: n in names ==> n in desired
    requires forall n :: n in names && Drifts(desired, actual, n) ==>
      (n in reg <==> n in reg') && (n in reg ==> reg[n] == reg'[n])
    ensures RepairEffects(reg, names, desired, actual) == RepairEffects(reg', names, desired, actual)
  {
    if names != [] {
      var init, last := names[..|names| - 1], names[|names| - 1];
      RepairEffectsAgree(reg, reg', init, desired, actual);
      if Drifts(desired, actual, last) {
        assert desired[last].name == last;
        assert RepairEffect(reg, desired[last]) == RepairEffect(reg', desired[last]);
      }
    }
  }

  /** The calls of one pass: every creation, then every deletion, then one call per
      drifted cluster decided on the registry as it was before the pass, then one
      increment of the reconciliation counter. */
  lemma ReconcileEffects(st: OperatorState, desired: Registry, actual: Actual, firstRun: bool,
                         created: seq<string>, deleted: seq<string>, visited: seq<string>)
    requires KeyedByName(desired)
    requires Enumerates(created, ToBeCreated(desired, actual))
    requires Enumerates(deleted, ToBeDeleted(desired, actual))
    requires Enumerates(visited, desired.Keys)
    ensures Reconciled(st, desired, actual, firstRun, created, deleted, visited).effects ==
      st.effects + CreateEffects(created, desired) + DeleteEffects(deleted)
      + RepairEffects(st.clusters, visited, desired, actual) + [CountReconciliation]
  {
    var afterAdd := AddAll(st, created, desired);
    var afterDelete := DeleteAll(afterAdd, deleted);
    AddAllEffects(st, created, desired);
    AddAllRegistry(st, created, desired);
    DeleteAllOutcome(afterAdd, deleted);
    RepairAllOutcome(afterDelete, visited, desired, actual);
    RepairEffectsAgree(afterDelete.clusters, st.clusters, visited, desired, actual);
  }

  /** The registry after one pass. On the first pass every desired cluster ends up
      filed as declared. Otherwise a created name holds its desired cluster, a
      drifted name holds its repaired entry, and a declared, observed name that
      does not drift keeps its entry. On every pass a deleted name is gone, and a
      name neither declared nor observed keeps its entry. */
  lemma ReconcileRegistry(st: OperatorState, desired: Registry, actual: Actual, firstRun: bool,
                          created: seq<string>, deleted: seq<string>, visited: seq<string>)
    requires KeyedByName(desired)
    requires Enumerates(created, ToBeCreated(desired, actual))
    requires Enumerates(deleted, ToBeDeleted(desired, actual))
    requires Enumerates(visited, desired.Keys)
    ensures var r := Reconciled(st, desired, actual, firstRun, created, deleted, visited).clusters;
      firstRun ==> forall n :: n in desired ==> n in r && r[n] == desired[n]
    ensures var r := Reconciled(st, desired, actual, firstRun, created, deleted, visited).clusters;
      !firstRun ==>
        && (forall n :: n in ToBeCreated(desired, actual) ==> n in r && r[n] == desired[n])
        && (forall n :: n in ToBeDeleted(desired, actual) ==> n !in r)
        && (forall n :: Drifts(desired, actual, n) ==> n in r && r[n] == RepairedEntry(st.clusters, desired[n], actual[n]))
        && (forall n :: n in desired && n in actual && !Drifts(desired, actual, n) ==>
              (n in r <==> n in st.clusters) && (n in r ==> r[n] == st.clusters[n]))
    ensures var r := Reconciled(st, desired, actual, firstRun, created, deleted, visited).clusters;
      forall n :: n in ToBeDeleted(desired, actual) ==> n !in r
    ensures var r := Reconciled(st, desired, actual, firstRun, created, deleted, visited).clusters;
      forall n :: n !in desired && n !in actual ==> (n in r <==> n in st.clusters) && (n in r ==> r[n] == st.clusters[n])
  {
    var afterAdd := AddAll(st, created, desired);
    var afterDelete := DeleteAll(afterAdd, deleted);
    AddAllRegistry(st, created, desired);
    DeleteAllOutcome(afterAdd, deleted);
    RepairAllOutcome(afterDelete, visited, desired, actual);
  }

  /** No call in `log` is an increment of the reconciliation counter. */
  predicate NoCount(log: Log) {
    forall i :: 0 <= i < |log| ==> !log[i].CountReconciliation?
  }

  lemma NoCountConcat(a: Log, b: Log)
    requires NoCount(a) && NoCount(b)
    ensures NoCount(a + b)
  {
    forall i | 0 <= i < |a + b| ensures !(a + b)[i].CountReconciliation? {
      if i >= |a| {
        assert (a + b)[i] == b[i - |a|];
      }
    }
  }

  /** The reconciliation counter is incremented exactly once per pass, as its last call. */
  lemma ReconcileCountsOnce(st: OperatorState, desired: Registry, actual: Actual, firstRun: bool,
                            created: seq<string>, deleted: seq<string>, visited: seq<string>)
    requires KeyedByName(desired)
    requires Enumerates(created, ToBeCreated(desired, actual))
    requires Enumerates(deleted, ToBeDeleted(desired, actual))
    requires Enumerates(visited, desired.Keys)
    ensures var e := Reconciled(st, desired, actual, firstRun, created, deleted, visited).effects;
      |e| > |st.effects| && e[..|st.effects|] == st.effects && e[|e| - 1] == CountReconciliation &&
      NoCount(e[|st.effects|..|e| - 1])
  {
    ReconcileEffects(st, desired, actual, firstRun, created, deleted, visited);
    var creates, deletes := CreateEffects(created, desired), DeleteEffects(deleted);
    var repairs := RepairEffects(st.clusters, visited, desired, actual);
    RepairEffectsNoCount(st.clusters, visited, desired, actual);
    NoCountConcat(creates, deletes);
    NoCountConcat(creates + deletes, repairs);
    CountLast(st.effects, creates + deletes + repairs);
  }

  lemma CountLast(prefix: Log, body: Log)
    requires NoCount(body)
    ensures var e := prefix + body + [CountReconciliation];
      |e| > |prefix| && e[..|prefix|] == prefix && e[|e| - 1] == CountReconciliation &&
      NoCount(e[|prefix|..|e| - 1])
  {
    var e := prefix + body + [CountReconciliation];
    assert e[|prefix|..|e| - 1] == body;
  }

  lemma {:induction false} RepairEffectsNoCount(reg: Registry, names: seq<string>, desired: Registry, actual: Actual)
    requires forall n :: n in names ==> n in desired
    ensures NoCount(RepairEffects(reg, names, desired, actual))
  {
    if names != [] {
      var n := names[|names| - 1];
      RepairEffectsNoCount(reg, names[..|names| - 1], desired, actual);
      NoCountConcat(RepairEffects(reg, names[..|names| - 1], desired, actual),
                    if Drifts(desired, actual, n) then [RepairEffect(reg, desired[n])] else []);
    }
  }

  /** A pass keeps every registry entry filed under its own cluster's name. */
  lemma ReconcileKeepsKeyedByName(st: OperatorState, desired: Registry, actual: Actual, firstRun: bool,
                                  created: seq<string>, deleted: seq<string>, visited: seq<string>)
    requires KeyedByName(st.clusters) && KeyedByName(desired)
    requires forall n :: n in created ==> n in desired
    requires forall n :: n in visited ==> n in desired
    ensures KeyedByName(Reconciled(st, desired, actual, firstRun, created, deleted, visited).clusters)
  {
    AddAllKeyed(st, created, desired);
    DeleteAllKeyed(AddAll(st, created, desired), deleted);
    RepairAllKeyed(DeleteAll(AddAll(st, created, desired), deleted), visited, desired, actual);
  }

  lemma {:induction false} AddAllKeyed(st: OperatorState, names: seq<string>, desired: Registry)
    requires KeyedByName(st.clusters) && KeyedByName(desired)
    requires forall n :: n in names ==> n in desired
    ensures KeyedByName(AddAll(st, names, desired).clusters)
  {
    if names != [] {
      AddAllKeyed(st, names[..|names| - 1], desired);
    }
  }

  lemma {:induction false} DeleteAllKeyed(st: OperatorState, names: seq<string>)
    requires KeyedByName(st.clusters)
    ensures KeyedByName(DeleteAll(st, names).clusters)
  {
    if names != [] {
      DeleteAllKeyed(st, names[..|names| - 1]);
    }
  }

  lemma {:induction false} RepairAllKeyed(st: OperatorState, names: seq<string>, desired: Registry, actual: Actual)
    requires KeyedByName(st.clusters) && KeyedByName(desired)
    requires forall n :: n in names ==> n in desired
    ensures KeyedByName(RepairAll(st, names, desired, actual).clusters)
  {
    if names != [] {
      RepairAllKeyed(st, names[..|names| - 1], desired, actual);
    }
  }

  /** Whether a pass notices a change: something to create, something to delete, or a drifted cluster. */
  ghost predicate Changes(desired: Registry, actual: Actual) {
    ToBeCreated(desired, actual) != {} || ToBeDeleted(desired, actual) != {} ||
    exists n :: Drifts(desired, actual, n)
  }

  /** Visiting every desired name finds a drifted cluster exactly when one exists. */
  lemma DriftVisited(visited: seq<string>, desired: Registry, actual: Actual)
    requires Enumerates(visited, desired.Keys)
    ensures (exists j :: 0 <= j < |visited| && Drifts(desired, actual, visited[j])) <==>
      exists n :: Drifts(desired, actual, n)
  {
    if n :| Drifts(desired, actual, n) {
      var j :| 0 <= j < |visited| && visited[j] == n;
    }
  }

  // ---------------------------------------------------------------------------
  // The operator object

  /** Some iteration order of `s`: the order in which a Java `HashSet` hands out
      its elements is not specified, so any order may be chosen. */
  method Enumerate(s: set<string>) returns (xs: seq<string>)
    ensures Enumerates(xs, s)
  {
    xs := [];
    var rest := s;
    while rest != {}
      invariant rest <= s
      invariant Distinct(xs)
      invariant forall x :: x in xs <==> x in s && x !in rest
      decreases |rest|
    {
      var x :| x in rest;
      xs := xs + [x];
      rest := rest - {x};
    }
  }

  class SparkClusterOperator {
    const namespace: string
    var clusters: Registry
    var effects: Log

    function State(): OperatorState
      reads this
    {
      OperatorState(clusters, effects)
    }

    /** Every registry entry is filed under its own cluster's name. */
    ghost predicate Valid()
      reads this
    {
      KeyedByName(clusters)
    }

    constructor(namespace: string)
      ensures this.namespace == namespace
      ensures clusters == map[] && effects == []
      ensures Valid()
    {
      this.namespace := namespace;
      clusters := map[];
      effects := [];
    }

    method OnAdd(cluster: SparkCluster)
      modifies this
      ensures State() == Added(old(State()), cluster)
      ensures old(Valid()) ==> Valid()
    {
      effects := effects + [CreateOrReplace(cluster)];
      clusters := clusters[cluster.name := cluster];
    }

    method OnDelete(cluster: SparkCluster)
      modifies this
      ensures State() == Deleted(old(State()), cluster)
      ensures old(Valid()) ==> Valid()
    {
      var name := cluster.name;
      effects := effects + [DeleteByLabels(Services, name)];
      effects := effects + [DeleteByLabels(ReplicationControllers, name)];
      effects := effects + [DeleteByLabels(Pods, name)];
      clusters := clusters - {name};
    }

    method OnModify(newCluster: SparkCluster)
      modifies this
      ensures State() == Modified(old(State()), newCluster)
      ensures old(Valid()) ==> Valid()
    {
      var name := newCluster.name;
      var newWorkers := newCluster.worker.instances;
      if name !in clusters {
        return;
      }
      var existingCluster := clusters[name];
      if IsOnlyScale(existingCluster, newCluster) {
        effects := effects + [Scale(name + "-w", newWorkers)];
      } else {
        effects := effects + [CreateOrReplace(newCluster)];
        clusters := clusters[name := newCluster];
      }
    }

    /** `fullReconciliation`. `desired` is the declared clusters keyed by name,
        `actual` the observed worker counts and `firstRun` tells whether this is
        the first pass since start. Besides the flag the source only logs, the
        method returns the orders in which it visited the created, deleted and
        desired names. */
    method FullReconciliation(desired: Registry, actual: Actual, firstRun: bool)
      returns (change: bool, created: seq<string>, deleted: seq<string>, visited: seq<string>)
      requires KeyedByName(desired)
      modifies this
      ensures namespace == "*" ==> State() == old(State()) && !change
      ensures namespace != "*" ==>
        && Enumerates(created, ToBeCreated(desired, actual))
        && Enumerates(deleted, ToBeDeleted(desired, actual))
        && Enumerates(visited, desired.Keys)
        && State() == Reconciled(old(State()), desired, actual, firstRun, created, deleted, visited)
        && (change <==> Changes(desired, actual))
      ensures old(Valid()) ==> Valid()
    {
      if namespace == "*" {
        return false, [], [], [];
      }
      change, created, deleted, visited := ReconcilePass(desired, actual, firstRun);
    }

    /** One pass in a namespace other than `*`. */
    method ReconcilePass(desired: Registry, actual: Actual, firstRun: bool)
      returns (change: bool, created: seq<string>, deleted: seq<string>, visited: seq<string>)
      requires KeyedByName(desired)
      modifies this
      ensures Enumerates(created, ToBeCreated(desired, actual))
      ensures Enumerates(deleted, ToBeDeleted(desired, actual))
      ensures Enumerates(visited, desired.Keys)
      ensures State() == Reconciled(old(State()), desired, actual, firstRun, created, deleted, visited)
      ensures change <==> Changes(desired, actual)
      ensures old(Valid()) ==> Valid()
    {
      ghost var st0 := State();
      ghost var valid0 := Valid();
      change := false;
      var toBeCreated := desired.Keys - actual.Keys;
      var toBeDeleted := actual.Keys - desired.Keys;
      if toBeCreated != {} {
        change := true;
      }
      if toBeDeleted != {} {
        change := true;
      }

      created := Enumerate(toBeCreated);
      AddClusters(created, desired);
      deleted := Enumerate(toBeDeleted);
      DeleteClusters(deleted);
      visited := Enumerate(desired.Keys);
      var drifted := RepairDrift(visited, desired, actual);
      change := change || drifted;
      DriftVisited(visited, desired, actual);
      FinishPass(desired, firstRun);
      if valid0 {
        ReconcileKeepsKeyedByName(st0, desired, actual, firstRun, created, deleted, visited);
      }
    }

    /** The end of a pass: on the first pass every desired cluster is put into the
        registry; then the reconciliation counter is incremented. */
    method FinishPass(desired: Registry, firstRun: bool)
      modifies this
      ensures clusters == if firstRun then old(clusters) + desired else old(clusters)
      ensures effects == old(effects) + [CountReconciliation]
    {
      if firstRun {
        clusters := clusters + desired;
      }
      effects := effects + [CountReconciliation];
    }

    /** The creation loop: `onAdd` of the desired cluster of each name, in order. */
    method AddClusters(names: seq<string>, desired: Registry)
      requires forall n :: n in names ==> n in desired
      modifies this
      ensures State() == AddAll(old(State()), names, desired)
    {
      ghost var st0 := State();
      for i := 0 to |names|
        invariant State() == AddAll(st0, names[..i], desired)
      {
        assert names[..i + 1][..i] == names[..i];
        OnAdd(desired[names[i]]);
      }
      assert names[..|names|] == names;
    }

    /** The deletion loop: `onDelete` of a cluster carrying only the name, for each name, in order. */
    method DeleteClusters(names: seq<string>)
      modifies this
      ensures State() == DeleteAll(old(State()), names)
    {
      ghost var st0 := State();
      for i := 0 to |names|
        invariant State() == DeleteAll(st0, names[..i])
      {
        assert names[..i + 1][..i] == names[..i];
        OnDelete(NameOnly(names[i]));
      }
      assert names[..|names|] == names;
    }

    /** The drift-repair loop over the desired clusters named in `names`, in order;
        `drifted` tells whether any of them drifted. */
    method RepairDrift(names: seq<string>, desired: Registry, actual: Actual) returns (drifted: bool)
      requires KeyedByName(desired)
      requires forall n :: n in names ==> n in desired
      modifies this
      ensures State() == RepairAll(old(State()), names, desired, actual)
      ensures drifted <==> exists j :: 0 <= j < |names| && Drifts(desired, actual, names[j])
    {
      ghost var st0 := State();
      drifted := false;
      for i := 0 to |names|
        invariant State() == RepairAll(st0, names[..i], desired, actual)
        invariant drifted <==> exists j :: 0 <= j < i && Drifts(desired, actual, names[j])
      {
        assert names[..i + 1][..i] == names[..i];
        var dCluster := desired[names[i]];
        assert dCluster.name == names[i];
        if dCluster.name in actual && dCluster.worker.instances != actual[dCluster.name] {
          drifted := true;
          var actualWorkers := actual[dCluster.name];
          if dCluster.name !in clusters {
            clusters := clusters[dCluster.name := WithWorkerInstances(dCluster, actualWorkers)];
          } else {
            clusters := clusters[dCluster.name := WithWorkerInstances(clusters[dCluster.name], actualWorkers)];
          }
          OnModify(dCluster);
        }
      }
      assert names[..|names|] == names;
    }
  }
}
