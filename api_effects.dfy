/** The calls the operators make on the Kubernetes client and on the metrics
    registry, recorded as entries of an effect log instead of being performed.
    The namespace a call goes to is not recorded in the entries. */
module ApiEffects {

  /** The object kinds `onDelete` removes by the cluster's default labels. */
  datatype ResourceKind = Services | ReplicationControllers | Pods

  datatype Effect<C> =
    | CreateOrReplace(cluster: C)                          // resourceList(deployer.getResourceList(c)).createOrReplace()
    | DeleteByLabels(kind: ResourceKind, clusterName: string)  // <kind>().withLabels(getDefaultLabels(name)).delete()
    | Scale(rcName: string, replicas: int)                 // replicationControllers().withName(rc).scale(n)
    | CountReconciliation                                  // reconciliationsTotal.labels(namespace).inc()

  /** The name of a cluster's worker replication controller. */
  function WorkerRcName(clusterName: string): string {
    clusterName + "-w"
  }

  /** The kind deleted at step `k` (0, 1, 2) of a cluster deletion. */
  function KindAt(k: int): ResourceKind {
    if k == 0 then Services else if k == 1 then ReplicationControllers else Pods
  }

  /** The three label-selected deletions of one cluster: services, then
      replication controllers, then pods. */
  function DeleteAllKinds<C>(clusterName: string): (r: seq<Effect<C>>)
    ensures |r| == 3
    ensures forall k :: 0 <= k < 3 ==> r[k] == DeleteByLabels(KindAt(k), clusterName)
  {
    [DeleteByLabels(Services, clusterName), DeleteByLabels(ReplicationControllers, clusterName),
     DeleteByLabels(Pods, clusterName)]
  }
}
