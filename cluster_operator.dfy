/** The config-map cluster operator (`ClusterOperator`): a registry of the
    clusters declared through config maps, kept by the watch callbacks. Its
    `onModify` only scales workers; image and master changes are not acted on. */
module ConfigMapOperator {
  import opened ClusterTypes
  import opened ApiEffects

  /** The cluster description read from a config map. */
  datatype ClusterInfo = ClusterInfo(name: string, customImage: Option<string>, masterNodes: int, workerNodes: int)

  type InfoRegistry = map<string, ClusterInfo>

  datatype InfoOperatorState = InfoOperatorState(clusters: InfoRegistry, effects: seq<Effect<ClusterInfo>>)

  /** `onAdd`: create-or-replace the cluster's resources, then file it in the registry. */
  function InfoAdded(st: InfoOperatorState, c: ClusterInfo): (r: InfoOperatorState)
    ensures c.name in r.clusters && r.clusters[c.name] == c
    ensures forall n :: n != c.name ==> (n in r.clusters <==> n in st.clusters)
    ensures forall n :: n != c.name && n in st.clusters ==> r.clusters[n] == st.clusters[n]
    ensures r.effects == st.effects + [CreateOrReplace(c)]
  {
    InfoOperatorState(st.clusters[c.name := c], st.effects + [CreateOrReplace(c)])
  }

  /** `onDelete`: delete services, replication controllers and pods carrying the
      cluster's labels, then forget the cluster; other entries stay as they were. */
  function InfoDeleted(st: InfoOperatorState, c: ClusterInfo): (r: InfoOperatorState)
    ensures c.name !in r.clusters
    ensures forall n :: n != c.name ==> (n in r.clusters <==> n in st.clusters)
    ensures forall n :: n != c.name && n in st.clusters ==> r.clusters[n] == st.clusters[n]
    ensures r.effects == st.effects + DeleteAllKinds(c.name)
  {
    InfoOperatorState(st.clusters - {c.name}, st.effects + DeleteAllKinds(c.name))
  }

  /** `onModify`: for a known cluster whose worker count changed, scale the worker
      replication controller and file the new description; otherwise nothing,
      whatever else changed. */
  function InfoModified(st: InfoOperatorState, newC: ClusterInfo): (r: InfoOperatorState)
    ensures newC.name !in st.clusters ==> r == st
    ensures newC.name in st.clusters && st.clusters[newC.name].workerNodes != newC.workerNodes ==>
      r.clusters == st.clusters[newC.name := newC] &&
      r.effects == st.effects + [Scale(WorkerRcName(newC.name), newC.workerNodes)]
    ensures newC.name in st.clusters && st.clusters[newC.name].workerNodes == newC.workerNodes ==> r == st
  {
    if newC.name !in st.clusters then st
    else if st.clusters[newC.name].workerNodes != newC.workerNodes then
      InfoOperatorState(st.clusters[newC.name := newC], st.effects + [Scale(WorkerRcName(newC.name), newC.workerNodes)])
    else st
  }

  /** A change of image or master count alone is not acted on: no call, and the
      registry keeps the previous description. */
  lemma InfoModifiedIgnoresImageAndMasters(st: InfoOperatorState, newC: ClusterInfo)
    requires newC.name in st.clusters
    requires st.clusters[newC.name].workerNodes == newC.workerNodes
    ensures InfoModified(st, newC).effects == st.effects
    ensures InfoModified(st, newC).clusters[newC.name] == st.clusters[newC.name]
  {
  }

  /** After a modification the registry agrees with the new description on the worker count. */
  lemma InfoModifiedTracksWorkers(st: InfoOperatorState, newC: ClusterInfo)
    requires newC.name in st.clusters
    ensures newC.name in InfoModified(st, newC).clusters
    ensures InfoModified(st, newC).clusters[newC.name].workerNodes == newC.workerNodes
  {
  }

  /** Delivering the same modification twice calls the cluster API only once. */
  lemma InfoModifiedIdempotent(st: InfoOperatorState, newC: ClusterInfo)
    ensures InfoModified(InfoModified(st, newC), newC) == InfoModified(st, newC)
  {
  }

  class ClusterOperator {
    const namespace: string
    var clusters: InfoRegistry
    var effects: seq<Effect<ClusterInfo>>

    function State(): InfoOperatorState
      reads this
    {
      InfoOperatorState(clusters, effects)
    }

    constructor(namespace: string)
      ensures this.namespace == namespace
      ensures clusters == map[] && effects == []
    {
      this.namespace := namespace;
      clusters := map[];
      effects := [];
    }

    method OnAdd(cluster: ClusterInfo)
      modifies this
      ensures State() == InfoAdded(old(State()), cluster)
    {
      effects := effects + [CreateOrReplace(cluster)];
      clusters := clusters[cluster.name := cluster];
    }

    method OnDelete(cluster: ClusterInfo)
      modifies this
      ensures State() == InfoDeleted(old(State()), cluster)
    {
      var name := cluster.name;
      effects := effects + [DeleteByLabels(Services, name)];
      effects := effects + [DeleteByLabels(ReplicationControllers, name)];
      effects := effects + [DeleteByLabels(Pods, name)];
      clusters := clusters - {name};
    }

    method OnModify(newCluster: ClusterInfo)
      modifies this
      ensures State() == InfoModified(old(State()), newCluster)
    {
      var name := newCluster.name;
      var newWorkers := newCluster.workerNodes;
      if name !in clusters {
        return;
      }
      var existingCluster := clusters[name];
      if existingCluster.workerNodes != newWorkers {
        effects := effects + [Scale(name + "-w", newWorkers)];
        clusters := clusters[name := newCluster];
      }
    }
  }
}
