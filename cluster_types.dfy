/** The declared cluster record (`io.radanalytics.types.SparkCluster` and its
    parts) as immutable values, shared by the init-container builder and the
    reconciler. Equality is structural, as `SparkCluster.equals` compares every
    field. */
module ClusterTypes {

  datatype Option<T> = None | Some(value: T) {
    /** `Optional.ofNullable(x).orElse(default)`. */
    function GetOr(default: T): T {
      match this
      case Some(v) => v
      case None => default
    }
  }

  /** One `{url, to}` entry of `downloadData`. */
  datatype DownloadDatum = DownloadDatum(url: string, to: string)

  /** One `{name, value}` entry of `sparkConfiguration`. */
  datatype NameValue = NameValue(name: string, value: string)

  /** The resources of one role (master or worker) and its replica count. */
  datatype RCSpec = RCSpec(instances: int, cpu: Option<string>, memory: Option<string>)

  datatype SparkCluster = SparkCluster(
    name: string,
    customImage: Option<string>,
    master: RCSpec,
    worker: RCSpec,
    downloadData: seq<DownloadDatum>,
    sparkConfiguration: seq<NameValue>,
    sparkConfigurationMap: Option<string>)

  /** Field by field, `a` and `b` agree on everything except `worker.instances`. */
  predicate SameButWorkerCount(a: SparkCluster, b: SparkCluster) {
    && a.name == b.name
    && a.customImage == b.customImage
    && a.master == b.master
    && a.worker.cpu == b.worker.cpu
    && a.worker.memory == b.worker.memory
    && a.downloadData == b.downloadData
    && a.sparkConfiguration == b.sparkConfiguration
    && a.sparkConfigurationMap == b.sparkConfigurationMap
  }

  /** A copy of `c` whose worker replica count is `n`. */
  function WithWorkerInstances(c: SparkCluster, n: int): (r: SparkCluster)
    ensures r.worker.instances == n
    ensures SameButWorkerCount(c, r)
  {
    c.(worker := c.worker.(instances := n))
  }

  /** Every entry of a registry is filed under its own cluster's name. */
  ghost predicate KeyedByName(m: map<string, SparkCluster>) {
    forall n :: n in m ==> m[n].name == n
  }

  /** `new SparkCluster()` with only its name set. Nothing but the name of such
      a record is ever read, so the other fields are placeholders. */
  function NameOnly(name: string): (r: SparkCluster)
    ensures r.name == name
  {
    SparkCluster(name, None, RCSpec(0, None, None), RCSpec(0, None, None), [], [], None)
  }
}
