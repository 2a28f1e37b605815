# spark-operator core, modelled in Dafny

This project models three parts of the radanalytics Spark operator for Kubernetes, and proves properties of them:

- **The init-container planner** (`InitContainersHelper`). Before a Spark replication controller is deployed, it may add up to three init containers to the pod spec, in this order:
  - `downloader`, which `wget`s the declared data;
  - `backup-config`, which copies the image's Spark configuration aside;
  - `override-config`, which lays the config map's files and the inline `spark-defaults.conf` entries over that copy and copies the result back.

  It also adds the volumes these containers need and mounts them into the primary container. It computes the config-map name and the probes' initial delay as well.
- **The custom-resource operator** (`SparkClusterOperator`). It keeps a registry of the clusters it believes deployed. Its watch callbacks create, delete, scale or recreate clusters. Its periodic full reconciliation compares the declared clusters with the worker replica counts observed in the namespace.
- **The config-map operator** (`ClusterOperator`). This smaller variant keeps its own registry, and its `onModify` acts only on a change of the worker count.

Files:

- `text.dfy` (module `Text`): prefix, suffix and occurrence tests on strings. It also has `ConcatMap`, the text a `StringBuilder` holds after a `forEach` that appends one piece per element.
- `cluster_types.dfy` (module `ClusterTypes`): the declared cluster record as a value with structural equality, and the "equal except the worker count" relation.
- `api_effects.dfy` (module `ApiEffects`): the Kubernetes client calls and the metric increment, recorded as entries of an effect log.
- `init_containers.dfy` (module `InitContainers`):
  - `PodSpec`, a class whose container, init-container and volume lists the builders append to in place;
  - the builders and command builders as methods with loops;
  - the functions that specify them, with lemmas about those functions.
- `spark_operator.dfy` (module `SparkOperator`):
  - the class `SparkClusterOperator`, with the registry and the effect log as fields;
  - its callbacks, proved against pure transition functions;
  - the reconciliation pass, proved against folds over the orders in which the set loops visit their elements;
  - lemmas that give those folds in closed form.
- `cluster_operator.dfy` (module `ConfigMapOperator`): the class `ClusterOperator` and its transitions.

The behaviour of the Java sets and the client calls is modelled as follows:

- **Set iteration.** Java `HashSet`s visit their elements in an unspecified order. `Enumerate` picks some order. The reconciliation returns the orders it used, and its contract holds for every choice.
- **`getActual`.** It becomes an input map from cluster name to observed worker count.
- **The declared set.** It becomes an input map keyed by cluster name.
- **The first-pass flag.** It becomes a boolean input.

## Model

| member | source | states |
|---|---|---|
| `InitContainers.AddInitContainers` | src/main/java/io/radanalytics/operator/cluster/InitContainersHelper.java:40-55 | the pod spec's init containers, volumes and primary-container mounts become their old values followed by the chain planned for the cluster; nothing present before is dropped or reordered |
| `InitContainers.AddDownloaderIfNeeded` | src/main/java/io/radanalytics/operator/cluster/InitContainersHelper.java:45-47 | appends the downloader, the `data-dir` volume and its primary mount exactly when there is data to download |
| `InitContainers.AddConfigOverrideIfNeeded` | src/main/java/io/radanalytics/operator/cluster/InitContainersHelper.java:48-51 | appends `backup-config`, then `override-config`, with their volumes and primary mounts, exactly when the config map exists or inline configuration is given |
| `InitContainers.InitChainShape` | src/main/java/io/radanalytics/operator/cluster/InitContainersHelper.java:45-51 | the chain has 0, 1, 2 or 3 entries: `downloader` first iff `downloadData` is non-empty, and `backup-config` then `override-config`, together and last, iff `cmExists` or `sparkConfiguration` is non-empty |
| `InitContainers.ChainVolumesContents` | src/main/java/io/radanalytics/operator/cluster/InitContainersHelper.java:45-51 | the chain adds `data-dir` iff there is data to download, `conf-orig-dir` iff the override runs, and the config-map volume iff the config map exists; that volume is the only one backed by a config map |
| `InitContainers.ChainPrimaryMountsContents` | src/main/java/io/radanalytics/operator/cluster/InitContainersHelper.java:45-51 | the primary container gets the data mount iff there is data to download and the original-configuration mount iff the override runs; it never gets the config-map mount |
| `InitContainers.PrimaryMountsBacked` | src/main/java/io/radanalytics/operator/cluster/InitContainersHelper.java:45-51 | every mount added to the primary container names a volume the chain adds |
| `InitContainers.InitMountsBacked` | src/main/java/io/radanalytics/operator/cluster/InitContainersHelper.java:57-181 | every mount of every added init container names a volume the chain adds |
| `InitContainers.ChainVolumeNames` | src/main/java/io/radanalytics/operator/cluster/InitContainersHelper.java:45-51 | the names `data-dir`, `conf-new-dir`, `conf-orig-dir` and `configmap-dir` are among the added volumes' names in the cases where their builders run |
| `InitContainers.WithPrimaryMounts` | src/main/java/io/radanalytics/operator/cluster/InitContainersHelper.java:87 | only the first (primary) container gains mounts, appended after its own; every other container and every other field is unchanged |
| `InitContainers.WithPrimaryMountsTwice` | src/main/java/io/radanalytics/operator/cluster/InitContainersHelper.java:107 | adding mounts to the primary container in two rounds is the same as adding both lists at once |
| `InitContainers.WithPrimaryMountsNone` | src/main/java/io/radanalytics/operator/cluster/InitContainersHelper.java:87 | adding no mounts leaves the containers unchanged |
| `InitContainers.CreateDownloader` | src/main/java/io/radanalytics/operator/cluster/InitContainersHelper.java:57-92 | returns the `downloader` container (busybox, `IfNotPresent`, `/bin/sh -xc`, the download command, the data mount); appends it to the init containers, appends the `data-dir` empty-dir volume, and appends the `/tmp/` mount to the primary container |
| `InitContainers.CreateBackupContainer` | src/main/java/io/radanalytics/operator/cluster/InitContainersHelper.java:94-112 | returns `backup-config` on the custom image or the default one, copying `/opt/spark/conf/*` to `/tmp/config/new`; appends it, the `conf-new-dir` volume and the primary mount |
| `InitContainers.CreateConfigOverrideContainer` | src/main/java/io/radanalytics/operator/cluster/InitContainersHelper.java:114-181 | returns `override-config` with the override command and the mounts config map (if it exists), backup, original; appends the config-map volume (only if it exists) and then `conf-orig-dir`; mounts `/opt/spark/conf` on the primary container |
| `InitContainers.OverrideMounts` | src/main/java/io/radanalytics/operator/cluster/InitContainersHelper.java:118-133 | the override container's mounts are, in order, the config-map mount when the config map exists, then the backup mount and the original-configuration mount |
| `InitContainers.BuildDownloadCommand` | src/main/java/io/radanalytics/operator/cluster/InitContainersHelper.java:62-75 | the command appended entry by entry equals the concatenation, in order, of one `wget` step per download entry |
| `InitContainers.DownloadCommandEntry` | src/main/java/io/radanalytics/operator/cluster/InitContainersHelper.java:63-75 | each entry's step sits between the steps of the entries before and after it, and the command contains `wget <url> -P <to> ; ` when `to` ends with `/` and `wget <url> -O <to> ; ` otherwise |
| `InitContainers.DownloadCommandExample` | src/main/java/io/radanalytics/operator/cluster/InitContainersHelper.java:69-74 | a single directory download gives exactly `wget http://x/f.tar -P /tmp/ ; ` |
| `InitContainers.BuildOverrideCommand` | src/main/java/io/radanalytics/operator/cluster/InitContainersHelper.java:135-165 | the override command built in three phases on one buffer equals the config-map part, then the inline part, then the copy back |
| `InitContainers.AppendCmCopy` | src/main/java/io/radanalytics/operator/cluster/InitContainersHelper.java:136-145 | appends `cp -r /tmp/config/fromCM/* /tmp/config/new` only when the config map exists, and ` ; ` after it only when inline configuration follows |
| `InitContainers.AppendInlineOverrides` | src/main/java/io/radanalytics/operator/cluster/InitContainersHelper.java:147-159 | with inline configuration, appends `echo -e "`, one `name value\n` line per entry in order, and the redirection to `spark-defaults.conf`; otherwise appends nothing |
| `InitContainers.AppendEchoClose` | src/main/java/io/radanalytics/operator/cluster/InitContainersHelper.java:156-158 | appends `" >> /tmp/config/new/spark-defaults.conf` |
| `InitContainers.AppendCopyBack` | src/main/java/io/radanalytics/operator/cluster/InitContainersHelper.java:162-165 | appends ` && cp -r /tmp/config/new/* /opt/spark/conf` |
| `InitContainers.OverrideCommandEndsWithCopyBack` | src/main/java/io/radanalytics/operator/cluster/InitContainersHelper.java:147-165 | the override command always ends with the copy back, immediately preceded by the appended overrides when there are some |
| `InitContainers.OverrideCommandStartsWithCmCopy` | src/main/java/io/radanalytics/operator/cluster/InitContainersHelper.java:136-159 | the command starts with the config-map copy iff the config map exists; with inline configuration too, the copy is followed by ` ; ` and the overrides; without it, the command is the copy and the copy back |
| `InitContainers.OverrideCommandEntry` | src/main/java/io/radanalytics/operator/cluster/InitContainersHelper.java:150-155 | every inline entry contributes its `name value\n` line, in order, and that line occurs in the override command |
| `InitContainers.ExpectedCmName` | src/main/java/io/radanalytics/operator/cluster/InitContainersHelper.java:190-192 | the declared config-map name when one is given; otherwise the cluster name followed by `-config` |
| `InitContainers.ExpectedDelay` | src/main/java/io/radanalytics/operator/cluster/InitContainersHelper.java:211-237 | the delay lies between 5 and 15 seconds plus the cpu term plus 4 per download; at most 11 plus those for a master, at least 9 plus those for a worker |
| `InitContainers.ExpectedDelayMonotonic` | src/main/java/io/radanalytics/operator/cluster/InitContainersHelper.java:211-237 | the delay never decreases with more downloads, with a config map, with inline configuration, or for a worker instead of a master |
| `ClusterTypes.WithWorkerInstances` | src/main/java/io/radanalytics/operator/cluster/SparkClusterOperator.java:137 | the copy has the given worker count and agrees with the original on every other field |
| `ApiEffects.DeleteAllKinds` | src/main/java/io/radanalytics/operator/cluster/SparkClusterOperator.java:49-51 | deleting a cluster is three label-selected deletions: services, then replication controllers, then pods |
| `SparkOperator.IsOnlyScale` | src/main/java/io/radanalytics/operator/cluster/SparkClusterOperator.java:188-195 | true iff the worker counts differ and the records agree on every other field |
| `SparkOperator.Added` | src/main/java/io/radanalytics/operator/cluster/SparkClusterOperator.java:40-44 | the registry files the cluster under its name, other entries are unchanged, and exactly one create-or-replace is issued |
| `SparkOperator.Deleted` | src/main/java/io/radanalytics/operator/cluster/SparkClusterOperator.java:47-53 | the three deletions by label are issued, the name leaves the registry, and other entries are unchanged |
| `SparkOperator.Modified` | src/main/java/io/radanalytics/operator/cluster/SparkClusterOperator.java:56-76 | for an unknown name nothing happens; a scale-only change issues one scale of `<name>-w` and leaves the registry as it is; any other change is handled as `onAdd` |
| `SparkOperator.ModifiedPaths` | src/main/java/io/radanalytics/operator/cluster/SparkClusterOperator.java:66-75 | the two paths of `onModify` in terms of what changed: if only the worker count differs, one scale to the new count and an untouched registry; otherwise one create-or-replace and a registry entry equal to the new cluster |
| `SparkOperator.ModifiedUnchanged` | src/main/java/io/radanalytics/operator/cluster/SparkClusterOperator.java:66-75 | re-sending the cluster the registry already holds issues a create-or-replace and leaves the registry as it was |
| `SparkOperator.ModifiedScaleBackRecreates` | src/main/java/io/radanalytics/operator/cluster/SparkClusterOperator.java:66-75 | a scale to another count leaves the registry at the old count, so a later scale back to that count is handled as a recreate |
| `SparkOperator.AddedThenDeleted` | src/main/java/io/radanalytics/operator/cluster/SparkClusterOperator.java:40-53 | adding and then deleting a cluster leaves the registry without that name and the log with one creation followed by the three deletions |
| `SparkOperator.CreatedDeletedDisjoint` | src/main/java/io/radanalytics/operator/cluster/SparkClusterOperator.java:99-100 | the names to create and the names to delete are disjoint, and none of them drifts |
| `SparkOperator.CreateEffects` | src/main/java/io/radanalytics/operator/cluster/SparkClusterOperator.java:112-115 | one create-or-replace of the desired cluster per created name, in visiting order |
| `SparkOperator.DeleteEffects` | src/main/java/io/radanalytics/operator/cluster/SparkClusterOperator.java:118-123 | three deletions per deleted name, every one a label-selected deletion of a deleted name |
| `SparkOperator.DeleteEffectsBlock` | src/main/java/io/radanalytics/operator/cluster/SparkClusterOperator.java:118-123 | the deletions of the name at position `i` are the services, replication controllers and pods of that name, at positions `3i` to `3i+2` |
| `SparkOperator.AddAllEffects` | src/main/java/io/radanalytics/operator/cluster/SparkClusterOperator.java:112-115 | the creation loop appends exactly the creations, in order |
| `SparkOperator.AddAllRegistry` | src/main/java/io/radanalytics/operator/cluster/SparkClusterOperator.java:112-115 | after the creation loop every created name holds its desired cluster, and every other entry is unchanged |
| `SparkOperator.DeleteAllOutcome` | src/main/java/io/radanalytics/operator/cluster/SparkClusterOperator.java:118-123 | the deletion loop appends exactly the deletions, in order, and removes exactly the deleted names |
| `SparkOperator.DriftStepOutcome` | src/main/java/io/radanalytics/operator/cluster/SparkClusterOperator.java:126-150 | a drifted cluster is repaired with exactly one call: a recreate when the registry holds a record of that name differing in more than the worker count, else a scale to the desired count. When the registry has no entry, a copy of the desired cluster with the observed count is filed and the call is the scale |
| `SparkOperator.RepairAllOutcome` | src/main/java/io/radanalytics/operator/cluster/SparkClusterOperator.java:126-151 | over distinct names the repair loop issues one call per drifted name, each decided on the registry as it was before the loop, and changes exactly the drifted entries |
| `SparkOperator.RepairEffectsAgree` | src/main/java/io/radanalytics/operator/cluster/SparkClusterOperator.java:126-151 | the repair calls depend on the registry only at the drifted names |
| `SparkOperator.RepairEffectsNoCount` | src/main/java/io/radanalytics/operator/cluster/SparkClusterOperator.java:126-151 | the repair loop never increments the reconciliation counter |
| `SparkOperator.DriftVisited` | src/main/java/io/radanalytics/operator/cluster/SparkClusterOperator.java:126-130 | visiting every declared cluster finds a drifted one iff one exists |
| `SparkOperator.ReconcileEffects` | src/main/java/io/radanalytics/operator/cluster/SparkClusterOperator.java:99-162 | a pass issues every creation, then every deletion, then one call per drifted cluster, then one counter increment |
| `SparkOperator.ReconcileRegistry` | src/main/java/io/radanalytics/operator/cluster/SparkClusterOperator.java:111-157 | on the first pass every declared cluster ends up filed as declared. Otherwise created names hold their desired cluster, drifted names hold their repaired entry, and declared, observed names that do not drift keep their entry. On every pass deleted names are gone, and names neither declared nor observed keep their entry |
| `SparkOperator.ReconcileCountsOnce` | src/main/java/io/radanalytics/operator/cluster/SparkClusterOperator.java:162 | a pass keeps the earlier log as a prefix and increments the reconciliation counter exactly once, as its last call |
| `SparkOperator.CountLast` | src/main/java/io/radanalytics/operator/cluster/SparkClusterOperator.java:162 | a log ending in one increment after increment-free calls has that increment as its only one |
| `SparkOperator.NoCountConcat` | src/main/java/io/radanalytics/operator/cluster/SparkClusterOperator.java:111-151 | two increment-free stretches of calls make an increment-free stretch |
| `SparkOperator.ReconcileKeepsKeyedByName` | src/main/java/io/radanalytics/operator/cluster/SparkClusterOperator.java:111-157 | a pass keeps every registry entry filed under its own cluster's name |
| `SparkOperator.AddAllKeyed` | src/main/java/io/radanalytics/operator/cluster/SparkClusterOperator.java:112-115 | the creation loop keeps entries filed under their own names |
| `SparkOperator.DeleteAllKeyed` | src/main/java/io/radanalytics/operator/cluster/SparkClusterOperator.java:118-123 | the deletion loop keeps entries filed under their own names |
| `SparkOperator.RepairAllKeyed` | src/main/java/io/radanalytics/operator/cluster/SparkClusterOperator.java:126-151 | the repair loop keeps entries filed under their own names |
| `SparkOperator.Enumerate` | src/main/java/io/radanalytics/operator/cluster/SparkClusterOperator.java:112 | visits every element of the set exactly once, in some order |
| `SparkOperator.SparkClusterOperator.constructor` | src/main/java/io/radanalytics/operator/cluster/SparkClusterOperator.java:197-202 | the registry starts empty, and so does the log |
| `SparkOperator.SparkClusterOperator.OnAdd` | src/main/java/io/radanalytics/operator/cluster/SparkClusterOperator.java:40-44 | the new state is `Added` of the old one, and entries stay filed under their own names |
| `SparkOperator.SparkClusterOperator.OnDelete` | src/main/java/io/radanalytics/operator/cluster/SparkClusterOperator.java:47-53 | the new state is `Deleted` of the old one |
| `SparkOperator.SparkClusterOperator.OnModify` | src/main/java/io/radanalytics/operator/cluster/SparkClusterOperator.java:56-76 | the new state is `Modified` of the old one |
| `SparkOperator.SparkClusterOperator.FullReconciliation` | src/main/java/io/radanalytics/operator/cluster/SparkClusterOperator.java:79-163 | in namespace `*` nothing changes: no call, no registry change, no counter increment. Otherwise the loops visit exactly the names to create, to delete and all declared names, and the new state is `Reconciled` of the old one under those orders. The change flag is set iff something was created, deleted or found drifted |
| `SparkOperator.SparkClusterOperator.ReconcilePass` | src/main/java/io/radanalytics/operator/cluster/SparkClusterOperator.java:90-162 | one pass outside namespace `*`, with the same guarantees |
| `SparkOperator.SparkClusterOperator.AddClusters` | src/main/java/io/radanalytics/operator/cluster/SparkClusterOperator.java:112-115 | the creation loop: `onAdd` of each name's desired cluster, in order |
| `SparkOperator.SparkClusterOperator.DeleteClusters` | src/main/java/io/radanalytics/operator/cluster/SparkClusterOperator.java:118-123 | the deletion loop: `onDelete` of a name-only cluster per name, in order |
| `SparkOperator.SparkClusterOperator.RepairDrift` | src/main/java/io/radanalytics/operator/cluster/SparkClusterOperator.java:126-151 | the repair loop: for each drifted name, the registry entry takes the observed count (or a copy of the desired cluster with that count is filed), then `onModify` of the desired cluster; reports whether any name drifted |
| `SparkOperator.SparkClusterOperator.FinishPass` | src/main/java/io/radanalytics/operator/cluster/SparkClusterOperator.java:154-162 | on the first pass every declared cluster is put into the registry; the counter is then incremented |
| `ConfigMapOperator.InfoAdded` | src/main/java/io/radanalytics/operator/cluster/ClusterOperator.java:31-35 | the registry files the cluster under its name, other entries are unchanged, one create-or-replace is issued |
| `ConfigMapOperator.InfoDeleted` | src/main/java/io/radanalytics/operator/cluster/ClusterOperator.java:37-43 | three deletions by label are issued, the name leaves the registry, other entries are unchanged |
| `ConfigMapOperator.InfoModified` | src/main/java/io/radanalytics/operator/cluster/ClusterOperator.java:45-63 | nothing for an unknown name. If the worker count changed, one scale of `<name>-w` to the new count and the new description filed. Otherwise nothing at all |
| `ConfigMapOperator.InfoModifiedIgnoresImageAndMasters` | src/main/java/io/radanalytics/operator/cluster/ClusterOperator.java:56-62 | with an unchanged worker count, a new image or master count issues no call and the registry keeps the previous description |
| `ConfigMapOperator.InfoModifiedTracksWorkers` | src/main/java/io/radanalytics/operator/cluster/ClusterOperator.java:56-61 | after a modification of a known cluster, the registry's worker count is the new one |
| `ConfigMapOperator.InfoModifiedIdempotent` | src/main/java/io/radanalytics/operator/cluster/ClusterOperator.java:45-63 | delivering the same modification twice has the effect of delivering it once |
| `ConfigMapOperator.ClusterOperator.constructor` | src/main/java/io/radanalytics/operator/cluster/ClusterOperator.java:23-29 | the registry starts empty, and so does the log |
| `ConfigMapOperator.ClusterOperator.OnAdd` | src/main/java/io/radanalytics/operator/cluster/ClusterOperator.java:31-35 | the new state is `InfoAdded` of the old one |
| `ConfigMapOperator.ClusterOperator.OnDelete` | src/main/java/io/radanalytics/operator/cluster/ClusterOperator.java:37-43 | the new state is `InfoDeleted` of the old one |
| `ConfigMapOperator.ClusterOperator.OnModify` | src/main/java/io/radanalytics/operator/cluster/ClusterOperator.java:45-63 | the new state is `InfoModified` of the old one |

## Behaviours worth knowing

- **The scale path of `onModify`** (SparkClusterOperator.java:66-69) issues the scale and leaves the registry entry at the old worker count. `ModifiedScaleBackRecreates` shows the consequence: a later scale back to that old count is handled as a recreate, not as a scale.
- **Drift repair** (SparkClusterOperator.java:126-150) calls `onModify` with the declared cluster on every pass, the first one included. So the first pass does not only adopt the observed count: it also scales or recreates each drifted cluster (`DriftStepOutcome`).

## Left out

- `Entrypoint.java` and `AppOperator.java` are not part of this model. They hold bootstrapping (verticle deployment, OpenShift detection, manifest reading) and calls that only forward to the client.
- Kubernetes client calls become entries of an effect log. Three details are not recorded:
  - the resource list `getResourceList` builds is represented by the cluster it is built from;
  - the namespace the calls go to;
  - the label maps.
  The custom-resource operator sends its calls to the namespace it watches (`inNamespace(namespace)`). The config-map operator's calls carry no namespace (ClusterOperator.java:33, 39-41, 59), so they go to the client's default namespace, which need not be the watched one. `ConfigMapOperator.ClusterOperator.namespace` is therefore unused.
- Client calls always succeed in the model. In the source no callback catches their exceptions:
  - a failing `createOrReplace` in `onAdd` or `onModify` skips the registry update (SparkClusterOperator.java:42-43, 73-74; ClusterOperator.java:33-34, 59-60);
  - a failing deletion in `onDelete` skips the remaining deletions and the removal from the registry (SparkClusterOperator.java:49-52; ClusterOperator.java:39-42);
  - during `fullReconciliation` such a failure aborts the current loop and the rest of the pass, including the counter increment (SparkClusterOperator.java:112-162).
  `ReconcileEffects`, `ReconcileRegistry`, `ReconcileCountsOnce`, `AddAllRegistry` and `DeleteAllOutcome` describe a pass in which every call succeeds.
- `getActual`'s label query becomes an input map. Its duplicate-key exception in `Collectors.toMap` is library behaviour.
- `fullReconciliation` builds its desired map with `Collectors.toMap`, which throws when two declared clusters share a name. `FullReconciliation` instead takes the declared clusters already keyed by their names (`requires KeyedByName(desired)`).
- The classes `AbstractOperator`, `RunningClusters`, `KubernetesSparkClusterDeployer`, `Constants`, `RCSpec` and `ClusterInfo` are not part of this model. `getDesiredSet` and `fullReconciliationRun` are inputs, and the registry is a map. `getDefaultSparkImage()` is the parameter `defaultImage`. Worker counts are compared as integers.
- The registry's running-cluster metrics and `resetMetrics` on the first pass are not modelled; only the reconciliation counter is.
- `ExpectedDelay`: the floating-point cpu term is not modelled. That term is `Double.parseDouble`, `(1.0 / cpu) * 3`, and the narrowing `delay += double`. It is the parameter `cpuTerm: nat`, which is 0 when no cpu is set or it does not parse. Three kinds of cpu value fall outside the model:
  - `"NaN"` parses, and `(int)(5 + NaN)` is 0, below the lower bound `ExpectedDelay` states;
  - a cpu of `0` gives an infinite term that narrows to `Integer.MAX_VALUE`. The delay stays there for a master with no config map, no inline configuration and no downloads. Anything added after that overflows;
  - negative cpus give a negative term.
- `isOnlyScale` writes the new cluster's worker count and restores it. The model compares against a masked copy instead, so the argument is unchanged by construction.
- The JSON deep copy in the repair loop becomes a record update. Its `IOException` branch, which skips `onModify` for that cluster, is not modelled.
- Registry entries are values. The source sets the worker count of a registry entry in place (SparkClusterOperator.java:145-146). The model assumes that object is not shared with a declared cluster, and the update is a map update.
- When the registry is repopulated on the first pass, the `forEach` over the entries is a map union. The keys are distinct, so the order does not matter.
- Null workers, null lists and an empty container list are not modelled. `containers.get(0)` throws on an empty list, hence `requires |pod.containers| > 0` on the builders.
- Java `int` overflow of counts and delays is not modelled: integers are unbounded.
- `addInitContainers` reaches the pod spec through the replication controller's template and sets it back. The model works on the pod spec directly.
- The `isOpenshift` flag of the config-map operator's callbacks, and its `isSupported` and `convert` (parsing a config map into a `ClusterInfo`), are not modelled.
- Logging and ANSI colours are left out.
