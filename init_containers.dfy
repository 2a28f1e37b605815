/** The init-container chain planner (`InitContainersHelper`): depending on the
    declared cluster it appends a `downloader`, and a `backup-config` followed
    by an `override-config` init container to a pod spec, with the volumes they
    use and the mounts that let the primary container see their results. */
module InitContainers {
  import opened Text
  import opened ClusterTypes

  const NEW_CONF_DIR := "conf-new-dir"
  const NEW_CONF_DIR_PATH := "/tmp/config/new"
  const DEFAULT_CONF_DIR_PATH := "/opt/spark/conf"
  const DATA_DIR := "data-dir"
  const DATA_DIR_PATH := "/tmp/"
  const CM_DIR := "configmap-dir"
  const CM_DIR_PATH := "/tmp/config/fromCM"
  const ORIG_CONF_DIR := "conf-orig-dir"
  const SHELL: seq<string> := ["/bin/sh", "-xc"]

  datatype VolumeMount = VolumeMount(name: string, mountPath: string)

  datatype VolumeSource = EmptyDir | ConfigMapSource(configMapName: string)

  datatype Volume = Volume(name: string, source: VolumeSource)

  datatype Container = Container(
    name: string,
    image: string,
    imagePullPolicy: Option<string>,
    command: seq<string>,
    args: seq<string>,
    volumeMounts: seq<VolumeMount>)

  /** The pod spec of a replication controller's template; the builders append
      to its lists in place. */
  class PodSpec {
    var containers: seq<Container>
    var initContainers: seq<Container>
    var volumes: seq<Volume>

    constructor(containers: seq<Container>, initContainers: seq<Container>, volumes: seq<Volume>)
      ensures this.containers == containers
      ensures this.initContainers == initContainers
      ensures this.volumes == volumes
    {
      this.containers := containers;
      this.initContainers := initContainers;
      this.volumes := volumes;
    }
  }

  const DATA_MOUNT := VolumeMount(DATA_DIR, DATA_DIR_PATH)
  const DATA_VOLUME := Volume(DATA_DIR, EmptyDir)
  const BACKUP_MOUNT := VolumeMount(NEW_CONF_DIR, NEW_CONF_DIR_PATH)
  const BACKUP_VOLUME := Volume(NEW_CONF_DIR, EmptyDir)
  const CM_MOUNT := VolumeMount(CM_DIR, CM_DIR_PATH)
  const ORIG_CONF_MOUNT := VolumeMount(ORIG_CONF_DIR, DEFAULT_CONF_DIR_PATH)
  const ORIG_CONF_VOLUME := Volume(ORIG_CONF_DIR, EmptyDir)

  /** The shell command of `backup-config`: copy the image's configuration into the new-conf volume. */
  const BACKUP_COMMAND := "cp -r " + DEFAULT_CONF_DIR_PATH + "/* " + NEW_CONF_DIR_PATH
  /** First part of the `override-config` command: copy the config map's files over the backup. */
  const CM_COPY := "cp -r " + CM_DIR_PATH + "/* " + NEW_CONF_DIR_PATH
  /** Last part of the `override-config` command: copy the merged configuration back to Spark's path. */
  const COPY_BACK := " && cp -r " + NEW_CONF_DIR_PATH + "/* " + DEFAULT_CONF_DIR_PATH

  // ---------------------------------------------------------------------------
  // Commands

  /** One download: `-P` (directory prefix) when the target ends with `/`, else `-O` (output file). */
  function WgetStep(dl: DownloadDatum): string {
    "wget " + dl.url + (if EndsWith(dl.to, "/") then " -P " else " -O ") + dl.to + " ; "
  }

  /** The `downloader` command: one `wget` step per entry of `downloadData`, in order. */
  function DownloadCommand(data: seq<DownloadDatum>): string {
    ConcatMap(data, WgetStep)
  }

  /** The downloader command is the steps of the entries before `i`, then the step of
      entry `i`, then those after it; that step is `wget <url> -P <to> ; ` for a
      directory target and `wget <url> -O <to> ; ` otherwise. */
  lemma DownloadCommandEntry(data: seq<DownloadDatum>, i: int)
    requires 0 <= i < |data|
    ensures DownloadCommand(data) == DownloadCommand(data[..i]) + WgetStep(data[i]) + DownloadCommand(data[i + 1..])
    ensures EndsWith(data[i].to, "/") ==>
      IsInfix("wget " + data[i].url + " -P " + data[i].to + " ; ", DownloadCommand(data))
    ensures !EndsWith(data[i].to, "/") ==>
      IsInfix("wget " + data[i].url + " -O " + data[i].to + " ; ", DownloadCommand(data))
  {
    ConcatMapAt(data, i, WgetStep);
    InfixAt(DownloadCommand(data[..i]), WgetStep(data[i]), DownloadCommand(data[i + 1..]));
  }

  /** The command for a single directory download names the `-P` switch. */
  lemma DownloadCommandExample()
    ensures DownloadCommand([DownloadDatum("http://x/f.tar", "/tmp/")]) == "wget http://x/f.tar -P /tmp/ ; "
  {
    var data := [DownloadDatum("http://x/f.tar", "/tmp/")];
    assert data[..0] == [];
    assert EndsWith("/tmp/", "/") by { assert "/tmp/"[4..] == "/"; }
  }

  /** Builds the downloader command the way the source does, appending to a buffer per entry. */
  method BuildDownloadCommand(data: seq<DownloadDatum>) returns (cmd: string)
    ensures cmd == DownloadCommand(data)
  {
    cmd := "";
    for i := 0 to |data|
      invariant cmd == DownloadCommand(data[..i])
    {
      var dl := data[i];
      var param := if EndsWith(dl.to, "/") then " -P " else " -O ";
      cmd := cmd + "wget ";
      cmd := cmd + dl.url;
      cmd := cmd + param;
      cmd := cmd + dl.to;
      cmd := cmd + " ; ";
      assert data[..i + 1][..i] == data[..i];
    }
    assert data[..|data|] == data;
  }

  /** One inline override as a line of `spark-defaults.conf` (`\n` is left for `echo -e`). */
  function KvLine(kv: NameValue): string {
    kv.name + " " + kv.value + "\\n"
  }

  const ECHO_OPEN := "echo -e \""
  const ECHO_CLOSE := "\" >> " + NEW_CONF_DIR_PATH + "/spark-defaults.conf"

  /** Appends every inline override, in order, to `spark-defaults.conf` in the new-conf volume. */
  function AppendOverrides(config: seq<NameValue>): string {
    ECHO_OPEN + ConcatMap(config, KvLine) + ECHO_CLOSE
  }

  /** The config-map part of the override command. */
  function CmPart(config: seq<NameValue>, cmExists: bool): string {
    if cmExists then CM_COPY + (if config != [] then " ; " else "") else ""
  }

  /** The inline-override part of the override command. */
  function KvPart(config: seq<NameValue>): string {
    if config != [] then AppendOverrides(config) else ""
  }

  /** The `override-config` command, built in three parts. */
  function OverrideCommand(config: seq<NameValue>, cmExists: bool): string {
    CmPart(config, cmExists) + KvPart(config) + COPY_BACK
  }

  /** The override command always ends by copying the merged configuration back
      to Spark's configuration path, and the inline overrides, when there are
      some, are appended just before that copy. */
  lemma OverrideCommandEndsWithCopyBack(config: seq<NameValue>, cmExists: bool)
    ensures IsSuffix(COPY_BACK, OverrideCommand(config, cmExists))
    ensures config != [] ==> IsSuffix(AppendOverrides(config) + COPY_BACK, OverrideCommand(config, cmExists))
  {
    var cmPart, kvPart := CmPart(config, cmExists), KvPart(config);
    SuffixOfConcat(cmPart + kvPart, COPY_BACK);
    if config != [] {
      SuffixOfConcat3(cmPart, kvPart, COPY_BACK);
    }
  }

  /** The override command starts with the config-map copy exactly when the config
      map exists; when inline overrides exist as well, the copy is followed by
      ` ; ` and then by the appended overrides, so the overrides win over files
      from the config map. */
  lemma OverrideCommandStartsWithCmCopy(config: seq<NameValue>, cmExists: bool)
    ensures cmExists <==> IsPrefix(CM_COPY, OverrideCommand(config, cmExists))
    ensures cmExists && config != [] ==>
      IsPrefix(CM_COPY + " ; " + AppendOverrides(config), OverrideCommand(config, cmExists))
    ensures cmExists && config == [] ==> OverrideCommand(config, cmExists) == CM_COPY + COPY_BACK
  {
    var cmPart, kvPart := CmPart(config, cmExists), KvPart(config);
    var r := OverrideCommand(config, cmExists);
    PrefixOfConcat(cmPart + kvPart, COPY_BACK);
    if cmExists {
      var sep := if config != [] then " ; " else "";
      assert cmPart == CM_COPY + sep;
      PrefixOfConcat(CM_COPY, sep);
      PrefixOfConcat(cmPart, kvPart);
      PrefixTrans(CM_COPY, cmPart, cmPart + kvPart);
      PrefixTrans(CM_COPY, cmPart + kvPart, r);
      if config == [] {
        assert cmPart == CM_COPY && kvPart == "";
        assert cmPart + kvPart == CM_COPY;
      }
    } else {
      assert cmPart == "";
      assert r[0] == (kvPart + COPY_BACK)[0];
      if config != [] {
        assert kvPart[0] == ECHO_OPEN[0] == 'e';
      } else {
        assert COPY_BACK[0] == ' ';
      }
      assert r[0] != CM_COPY[0];
    }
  }

  /** Every inline override contributes its `name value\n` line, in order, to the
      override command. */
  lemma OverrideCommandEntry(config: seq<NameValue>, cmExists: bool, i: int)
    requires 0 <= i < |config|
    ensures ConcatMap(config, KvLine) == ConcatMap(config[..i], KvLine) + KvLine(config[i]) + ConcatMap(config[i + 1..], KvLine)
    ensures IsInfix(config[i].name + " " + config[i].value + "\\n", OverrideCommand(config, cmExists))
  {
    var lines := ConcatMap(config, KvLine);
    ConcatMapAt(config, i, KvLine);
    InfixAt(ConcatMap(config[..i], KvLine), KvLine(config[i]), ConcatMap(config[i + 1..], KvLine));
    InfixAt(ECHO_OPEN, lines, ECHO_CLOSE);
    InfixTrans(KvLine(config[i]), lines, AppendOverrides(config));
    InfixAt(CmPart(config, cmExists), AppendOverrides(config), COPY_BACK);
    InfixTrans(KvLine(config[i]), AppendOverrides(config), OverrideCommand(config, cmExists));
  }

  /** Builds the override command the way the source does: one buffer, appended to
      in three phases. */
  method BuildOverrideCommand(config: seq<NameValue>, cmExists: bool) returns (cmd: string)
    ensures cmd == OverrideCommand(config, cmExists)
  {
    cmd := AppendCmCopy("", config, cmExists);
    assert cmd == CmPart(config, cmExists);
    ghost var cmPart := cmd;
    cmd := AppendInlineOverrides(cmd, config);
    cmd := AppendCopyBack(cmd);
    assert cmd == cmPart + KvPart(config) + COPY_BACK;
  }

  /** Phase one: the config-map copy, and its separator when inline overrides follow. */
  method AppendCmCopy(buf: string, config: seq<NameValue>, cmExists: bool) returns (cmd: string)
    ensures cmd == buf + CmPart(config, cmExists)
  {
    cmd := buf;
    if cmExists {
      cmd := cmd + "cp -r ";
      cmd := cmd + CM_DIR_PATH;
      cmd := cmd + "/* ";
      cmd := cmd + NEW_CONF_DIR_PATH;
      if config != [] {
        cmd := cmd + " ; ";
      }
    }
  }

  /** Phase two: the `echo -e` of one line per inline override, appended to `spark-defaults.conf`. */
  method AppendInlineOverrides(buf: string, config: seq<NameValue>) returns (cmd: string)
    ensures cmd == buf + KvPart(config)
  {
    cmd := buf;
    if config != [] {
      cmd := cmd + "echo -e \"";
      for i := 0 to |config|
        invariant cmd == buf + ECHO_OPEN + ConcatMap(config[..i], KvLine)
      {
        cmd := cmd + config[i].name;
        cmd := cmd + " ";
        cmd := cmd + config[i].value;
        cmd := cmd + "\\n";
        assert config[..i + 1][..i] == config[..i];
      }
      assert config[..|config|] == config;
      cmd := AppendEchoClose(cmd);
      ConcatAssoc(buf, ECHO_OPEN, ConcatMap(config, KvLine), ECHO_CLOSE);
    }
  }

  /** The end of phase two: redirect the echoed lines to `spark-defaults.conf` in the new-conf volume. */
  method AppendEchoClose(buf: string) returns (cmd: string)
    ensures cmd == buf + ECHO_CLOSE
  {
    cmd := buf;
    cmd := cmd + "\" >> ";
    cmd := cmd + NEW_CONF_DIR_PATH;
    cmd := cmd + "/spark-defaults.conf";
  }

  /** Phase three: copy the merged configuration back to Spark's configuration path. */
  method AppendCopyBack(buf: string) returns (cmd: string)
    ensures cmd == buf + COPY_BACK
  {
    cmd := buf;
    cmd := cmd + " && cp -r ";
    cmd := cmd + NEW_CONF_DIR_PATH;
    cmd := cmd + "/* ";
    cmd := cmd + DEFAULT_CONF_DIR_PATH;
  }

  // ---------------------------------------------------------------------------
  // Config-map name and probe delay

  /** The config map holding configuration overrides: the declared one, else `<name>-config`. */
  function ExpectedCmName(c: SparkCluster): (r: string)
    ensures c.sparkConfigurationMap.Some? ==> r == c.sparkConfigurationMap.value
    ensures c.sparkConfigurationMap.None? ==> IsPrefix(c.name, r) && IsSuffix("-config", r) && |r| == |c.name| + 7
  {
    if c.sparkConfigurationMap.None? then c.name + "-config" else c.sparkConfigurationMap.value
  }

  /** Initial delay of the readiness and liveness probes. `cpuTerm` stands for the
      truncated `(1.0 / cpu) * 3` seconds added when a cpu limit is set and parses
      (0 otherwise). */
  function ExpectedDelay(c: SparkCluster, cmExists: bool, isMaster: bool, cpuTerm: nat): (r: int)
    ensures 5 + cpuTerm + 4 * |c.downloadData| <= r <= 15 + cpuTerm + 4 * |c.downloadData|
    ensures isMaster ==> r <= 11 + cpuTerm + 4 * |c.downloadData|
    ensures !isMaster ==> r >= 9 + cpuTerm + 4 * |c.downloadData|
  {
    var delay := 5 + cpuTerm;
    var delay := delay + (if isMaster then 0 else 4);
    var delay := delay + (if cmExists then 3 else 0);
    var delay := delay + (if c.sparkConfiguration != [] then 3 else 0);
    delay + |c.downloadData| * 4
  }

  /** The delay never decreases when downloads are added, when a config map
      appears, when inline overrides appear, or for a worker instead of a master. */
  lemma ExpectedDelayMonotonic(c: SparkCluster, c': SparkCluster, cm: bool, cm': bool,
                               isMaster: bool, isMaster': bool, cpuTerm: nat)
    requires |c.downloadData| <= |c'.downloadData|
    requires c.sparkConfiguration != [] ==> c'.sparkConfiguration != []
    requires cm ==> cm'
    requires isMaster' ==> isMaster
    ensures ExpectedDelay(c, cm, isMaster, cpuTerm) <= ExpectedDelay(c', cm', isMaster', cpuTerm)
  {
  }

  // ---------------------------------------------------------------------------
  // The chain of init containers

  predicate NeedsDownloader(c: SparkCluster) {
    c.downloadData != []
  }

  predicate NeedsConfigOverride(c: SparkCluster, cmExists: bool) {
    cmExists || c.sparkConfiguration != []
  }

  function DownloaderContainer(data: seq<DownloadDatum>): Container {
    Container("downloader", "busybox", Some("IfNotPresent"), SHELL, [DownloadCommand(data)], [DATA_MOUNT])
  }

  /** `backup-config` runs on the cluster's own image, so it copies the configuration the primary container would see. */
  function BackupContainer(c: SparkCluster, defaultImage: string): Container {
    Container("backup-config", c.customImage.GetOr(defaultImage), None, SHELL, [BACKUP_COMMAND], [BACKUP_MOUNT])
  }

  /** The mounts of `override-config`: the config map (if any), the backup, the original path. */
  function OverrideMounts(cmExists: bool): (r: seq<VolumeMount>)
    ensures |r| == (if cmExists then 3 else 2)
    ensures r[|r| - 2] == BACKUP_MOUNT && r[|r| - 1] == ORIG_CONF_MOUNT
    ensures cmExists ==> r[0] == CM_MOUNT
    ensures CM_MOUNT in r <==> cmExists
  {
    (if cmExists then [CM_MOUNT] else []) + [BACKUP_MOUNT, ORIG_CONF_MOUNT]
  }

  function OverrideContainer(c: SparkCluster, cmExists: bool): Container {
    Container("override-config", "busybox", Some("IfNotPresent"), SHELL,
              [OverrideCommand(c.sparkConfiguration, cmExists)], OverrideMounts(cmExists))
  }

  function CmVolume(c: SparkCluster): Volume {
    Volume(CM_DIR, ConfigMapSource(ExpectedCmName(c)))
  }

  /** The downloader's share of the chain: its init container, volume and primary mount. */
  function DownloaderInits(c: SparkCluster): seq<Container> {
    if NeedsDownloader(c) then [DownloaderContainer(c.downloadData)] else []
  }

  function DownloaderVolumes(c: SparkCluster): seq<Volume> {
    if NeedsDownloader(c) then [DATA_VOLUME] else []
  }

  function DownloaderMounts(c: SparkCluster): seq<VolumeMount> {
    if NeedsDownloader(c) then [DATA_MOUNT] else []
  }

  /** The configuration override's share of the chain: `backup-config` and
      `override-config`, their volumes (the config map's only when it exists)
      and the primary container's mounts. */
  function OverrideInits(c: SparkCluster, cmExists: bool, defaultImage: string): seq<Container> {
    if NeedsConfigOverride(c, cmExists) then [BackupContainer(c, defaultImage), OverrideContainer(c, cmExists)] else []
  }

  function OverrideVolumes(c: SparkCluster, cmExists: bool): seq<Volume> {
    if NeedsConfigOverride(c, cmExists)
    then [BACKUP_VOLUME] + (if cmExists then [CmVolume(c)] else []) + [ORIG_CONF_VOLUME]
    else []
  }

  function OverrideMountsOfPrimary(c: SparkCluster, cmExists: bool): seq<VolumeMount> {
    if NeedsConfigOverride(c, cmExists) then [BACKUP_MOUNT, ORIG_CONF_MOUNT] else []
  }

  /** The init containers the chain appends. */
  function InitChain(c: SparkCluster, cmExists: bool, defaultImage: string): seq<Container> {
    DownloaderInits(c) + OverrideInits(c, cmExists, defaultImage)
  }

  /** The volumes the chain appends. */
  function ChainVolumes(c: SparkCluster, cmExists: bool): seq<Volume> {
    DownloaderVolumes(c) + OverrideVolumes(c, cmExists)
  }

  /** The mounts the chain adds to the primary container. */
  function ChainPrimaryMounts(c: SparkCluster, cmExists: bool): seq<VolumeMount> {
    DownloaderMounts(c) + OverrideMountsOfPrimary(c, cmExists)
  }

  /** The chain is `downloader` first when there is data to download, and
      `backup-config` then `override-config`, together and last, when a config
      map or inline overrides exist; nothing else. */
  lemma InitChainShape(c: SparkCluster, cmExists: bool, defaultImage: string)
    ensures var r := InitChain(c, cmExists, defaultImage);
      && |r| == (if NeedsDownloader(c) then 1 else 0) + (if NeedsConfigOverride(c, cmExists) then 2 else 0)
      && (NeedsDownloader(c) ==> r[0] == DownloaderContainer(c.downloadData))
      && (!NeedsDownloader(c) ==> forall i :: 0 <= i < |r| ==> r[i].name != "downloader")
      && (NeedsConfigOverride(c, cmExists) ==>
            r[|r| - 2] == BackupContainer(c, defaultImage) && r[|r| - 1] == OverrideContainer(c, cmExists))
      && (!NeedsConfigOverride(c, cmExists) ==> forall i :: 0 <= i < |r| ==> r[i].name == "downloader")
  {
  }

  /** The data volume is added exactly when there is data to download, the
      original-configuration volume exactly when the override runs, and the
      config-map volume, the only one backed by a config map, exactly when the
      config map exists. */
  lemma ChainVolumesContents(c: SparkCluster, cmExists: bool)
    ensures var r := ChainVolumes(c, cmExists);
      && (CmVolume(c) in r <==> cmExists)
      && (DATA_VOLUME in r <==> NeedsDownloader(c))
      && (ORIG_CONF_VOLUME in r <==> NeedsConfigOverride(c, cmExists))
      && (forall v :: v in r ==> v.source.ConfigMapSource? ==> v == CmVolume(c))
  {
  }

  /** The primary container gets the data mount exactly when there is data to
      download, the original-configuration mount exactly when the override runs,
      and never the config-map mount. */
  lemma ChainPrimaryMountsContents(c: SparkCluster, cmExists: bool)
    ensures var r := ChainPrimaryMounts(c, cmExists);
      && (DATA_MOUNT in r <==> NeedsDownloader(c))
      && (ORIG_CONF_MOUNT in r <==> NeedsConfigOverride(c, cmExists))
      && CM_MOUNT !in r
  {
  }

  function VolumeNames(vs: seq<Volume>): set<string> {
    set v | v in vs :: v.name
  }

  function MountNames(ms: seq<VolumeMount>): set<string> {
    set m | m in ms :: m.name
  }

  /** Mounts whose every name is the name of one of `vs` are backed by `vs`. */
  lemma MountsBackedBy(ms: seq<VolumeMount>, vs: seq<Volume>)
    requires forall m :: m in ms ==> m.name in VolumeNames(vs)
    ensures MountNames(ms) <= VolumeNames(vs)
  {
  }

  lemma VolumeNamed(v: Volume, vs: seq<Volume>)
    requires v in vs
    ensures v.name in VolumeNames(vs)
  {
  }

  /** The names of the volumes the chain adds, case by case. */
  lemma ChainVolumeNames(c: SparkCluster, cmExists: bool)
    ensures NeedsDownloader(c) ==> DATA_DIR in VolumeNames(ChainVolumes(c, cmExists))
    ensures NeedsConfigOverride(c, cmExists) ==>
      NEW_CONF_DIR in VolumeNames(ChainVolumes(c, cmExists)) && ORIG_CONF_DIR in VolumeNames(ChainVolumes(c, cmExists))
    ensures cmExists ==> CM_DIR in VolumeNames(ChainVolumes(c, cmExists))
  {
    var vs := ChainVolumes(c, cmExists);
    if NeedsDownloader(c) {
      VolumeNamed(DATA_VOLUME, vs);
    }
    if NeedsConfigOverride(c, cmExists) {
      var dl := if NeedsDownloader(c) then [DATA_VOLUME] else [];
      var cm := if cmExists then [CmVolume(c)] else [];
      assert vs == dl + ([BACKUP_VOLUME] + cm + [ORIG_CONF_VOLUME]);
      assert vs[|dl|] == BACKUP_VOLUME;
      VolumeNamed(BACKUP_VOLUME, vs);
      VolumeNamed(ORIG_CONF_VOLUME, vs);
      if cmExists {
        VolumeNamed(CmVolume(c), vs);
      }
    }
  }

  /** Every mount the chain adds to the primary container is backed by a volume the chain adds. */
  lemma PrimaryMountsBacked(c: SparkCluster, cmExists: bool)
    ensures MountNames(ChainPrimaryMounts(c, cmExists)) <= VolumeNames(ChainVolumes(c, cmExists))
  {
    ChainVolumeNames(c, cmExists);
    MountsBackedBy(ChainPrimaryMounts(c, cmExists), ChainVolumes(c, cmExists));
  }

  /** Every mount of every init container the chain adds is backed by a volume the chain adds. */
  lemma InitMountsBacked(c: SparkCluster, cmExists: bool, defaultImage: string, i: int)
    requires 0 <= i < |InitChain(c, cmExists, defaultImage)|
    ensures MountNames(InitChain(c, cmExists, defaultImage)[i].volumeMounts) <= VolumeNames(ChainVolumes(c, cmExists))
  {
    var vs, chain := ChainVolumes(c, cmExists), InitChain(c, cmExists, defaultImage);
    ChainVolumeNames(c, cmExists);
    var off := if NeedsDownloader(c) then 1 else 0;
    if i < off {
      assert chain[i].volumeMounts == [DATA_MOUNT];
    } else if i == off {
      assert chain[i].volumeMounts == [BACKUP_MOUNT];
    } else {
      assert chain[i].volumeMounts == OverrideMounts(cmExists);
    }
    MountsBackedBy(chain[i].volumeMounts, vs);
  }

  /** `cs` with `ms` appended to the volume mounts of its first (primary) container. */
  function WithPrimaryMounts(cs: seq<Container>, ms: seq<VolumeMount>): (r: seq<Container>)
    requires |cs| > 0
    ensures |r| == |cs| && r[1..] == cs[1..]
    ensures r[0].volumeMounts == cs[0].volumeMounts + ms
    ensures r[0] == cs[0].(volumeMounts := r[0].volumeMounts)
  {
    [cs[0].(volumeMounts := cs[0].volumeMounts + ms)] + cs[1..]
  }

  lemma WithPrimaryMountsTwice(cs: seq<Container>, ms: seq<VolumeMount>, ns: seq<VolumeMount>)
    requires |cs| > 0
    ensures WithPrimaryMounts(WithPrimaryMounts(cs, ms), ns) == WithPrimaryMounts(cs, ms + ns)
  {
    var once := WithPrimaryMounts(cs, ms);
    assert once[0].volumeMounts + ns == cs[0].volumeMounts + (ms + ns);
    assert once[1..] == cs[1..];
  }

  lemma WithPrimaryMountsNone(cs: seq<Container>)
    requires |cs| > 0
    ensures WithPrimaryMounts(cs, []) == cs
  {
    assert cs[0].volumeMounts + [] == cs[0].volumeMounts;
    assert [cs[0]] + cs[1..] == cs;
  }

  // ---------------------------------------------------------------------------
  // The builders

  method CreateDownloader(c: SparkCluster, pod: PodSpec) returns (downloader: Container)
    requires |pod.containers| > 0
    modifies pod
    ensures downloader == DownloaderContainer(c.downloadData)
    ensures pod.initContainers == old(pod.initContainers) + [downloader]
    ensures pod.volumes == old(pod.volumes) + [DATA_VOLUME]
    ensures pod.containers == WithPrimaryMounts(old(pod.containers), [DATA_MOUNT])
  {
    var cmd := BuildDownloadCommand(c.downloadData);
    downloader := Container("downloader", "busybox", Some("IfNotPresent"), SHELL, [cmd], [DATA_MOUNT]);
    pod.containers := WithPrimaryMounts(pod.containers, [DATA_MOUNT]);
    pod.volumes := pod.volumes + [DATA_VOLUME];
    pod.initContainers := pod.initContainers + [downloader];
  }

  method CreateBackupContainer(c: SparkCluster, pod: PodSpec, defaultImage: string) returns (backup: Container)
    requires |pod.containers| > 0
    modifies pod
    ensures backup == BackupContainer(c, defaultImage)
    ensures pod.initContainers == old(pod.initContainers) + [backup]
    ensures pod.volumes == old(pod.volumes) + [BACKUP_VOLUME]
    ensures pod.containers == WithPrimaryMounts(old(pod.containers), [BACKUP_MOUNT])
  {
    backup := Container("backup-config", c.customImage.GetOr(defaultImage), None, SHELL,
                        ["cp -r " + DEFAULT_CONF_DIR_PATH + "/* " + NEW_CONF_DIR_PATH], [BACKUP_MOUNT]);
    pod.containers := WithPrimaryMounts(pod.containers, [BACKUP_MOUNT]);
    pod.volumes := pod.volumes + [BACKUP_VOLUME];
    pod.initContainers := pod.initContainers + [backup];
  }

  method CreateConfigOverrideContainer(c: SparkCluster, pod: PodSpec, cmExists: bool) returns (overrideConfig: Container)
    requires |pod.containers| > 0
    modifies pod
    ensures overrideConfig == OverrideContainer(c, cmExists)
    ensures pod.initContainers == old(pod.initContainers) + [overrideConfig]
    ensures pod.volumes == old(pod.volumes) + (if cmExists then [CmVolume(c)] else []) + [ORIG_CONF_VOLUME]
    ensures pod.containers == WithPrimaryMounts(old(pod.containers), [ORIG_CONF_MOUNT])
  {
    var mounts: seq<VolumeMount> := [];
    if cmExists {
      var cmName := ExpectedCmName(c);
      pod.volumes := pod.volumes + [Volume(CM_DIR, ConfigMapSource(cmName))];
      mounts := mounts + [CM_MOUNT];
    }
    mounts := mounts + [BACKUP_MOUNT];
    mounts := mounts + [ORIG_CONF_MOUNT];
    var cmd := BuildOverrideCommand(c.sparkConfiguration, cmExists);
    overrideConfig := Container("override-config", "busybox", Some("IfNotPresent"), SHELL, [cmd], mounts);
    pod.initContainers := pod.initContainers + [overrideConfig];
    pod.containers := WithPrimaryMounts(pod.containers, [ORIG_CONF_MOUNT]);
    pod.volumes := pod.volumes + [ORIG_CONF_VOLUME];
  }

  /** `addInitContainers`: appends the whole chain; what the pod spec held before is kept as a prefix. */
  method AddInitContainers(pod: PodSpec, c: SparkCluster, cmExists: bool, defaultImage: string)
    requires |pod.containers| > 0
    modifies pod
    ensures pod.initContainers == old(pod.initContainers) + InitChain(c, cmExists, defaultImage)
    ensures pod.volumes == old(pod.volumes) + ChainVolumes(c, cmExists)
    ensures pod.containers == WithPrimaryMounts(old(pod.containers), ChainPrimaryMounts(c, cmExists))
  {
    ghost var containers0 := pod.containers;
    AddDownloaderIfNeeded(pod, c);
    AddConfigOverrideIfNeeded(pod, c, cmExists, defaultImage);
    WithPrimaryMountsTwice(containers0, DownloaderMounts(c), OverrideMountsOfPrimary(c, cmExists));
  }

  /** The first step of `addInitContainers`: the downloader, when there is data to download. */
  method AddDownloaderIfNeeded(pod: PodSpec, c: SparkCluster)
    requires |pod.containers| > 0
    modifies pod
    ensures pod.initContainers == old(pod.initContainers) + DownloaderInits(c)
    ensures pod.volumes == old(pod.volumes) + DownloaderVolumes(c)
    ensures pod.containers == WithPrimaryMounts(old(pod.containers), DownloaderMounts(c))
  {
    if c.downloadData != [] {
      var _ := CreateDownloader(c, pod);
    } else {
      WithPrimaryMountsNone(pod.containers);
    }
  }

  /** The second step of `addInitContainers`: backup and override, when a config map or inline overrides exist. */
  method AddConfigOverrideIfNeeded(pod: PodSpec, c: SparkCluster, cmExists: bool, defaultImage: string)
    requires |pod.containers| > 0
    modifies pod
    ensures pod.initContainers == old(pod.initContainers) + OverrideInits(c, cmExists, defaultImage)
    ensures pod.volumes == old(pod.volumes) + OverrideVolumes(c, cmExists)
    ensures pod.containers == WithPrimaryMounts(old(pod.containers), OverrideMountsOfPrimary(c, cmExists))
  {
    if cmExists || c.sparkConfiguration != [] {
      ghost var containers0 := pod.containers;
      var backup := CreateBackupContainer(c, pod, defaultImage);
      var overrideConfig := CreateConfigOverrideContainer(c, pod, cmExists);
      WithPrimaryMountsTwice(containers0, [BACKUP_MOUNT], [ORIG_CONF_MOUNT]);
      assert [BACKUP_MOUNT] + [ORIG_CONF_MOUNT] == OverrideMountsOfPrimary(c, cmExists);
      assert [backup] + [overrideConfig] == OverrideInits(c, cmExists, defaultImage);
    } else {
      WithPrimaryMountsNone(pod.containers);
    }
  }
}
