/**
 * The transform from a service configuration to a launch configuration: a
 * field-by-field copy plus the derived fields (image reference, data volumes,
 * devices, block-I/O records, tmpfs, ulimits, log configuration).
 */
module Transform {
  import opened Wrappers
  import opened Text
  import opened Numbers
  import opened Assoc
  import opened Config
  import Blkio

  const ImagePrefix := "docker:"

  /**
   * Where the service was declared. Whether a source names a declared volume,
   * and how a path is resolved against a compose file, belong to the project
   * library; they are taken as given functions.
   */
  datatype Context = Context(
    composeFiles: seq<string>,
    isNamedVolume: string -> bool,
    resolvePath: (string, string) -> string)

  /** The launch configuration's ulimit: a flat (name, soft, hard) triple. */
  datatype RancherUlimit = RancherUlimit(name: string, soft: int64, hard: int64)

  datatype LogConfig = LogConfig(driver: string, config: map<string, string>)

  datatype LaunchConfig = LaunchConfig(
    hostname: string,
    memory: int64,
    cpuSet: string,
    cpuShares: int64,
    memorySwap: int64,
    domainName: string,
    user: string,
    tty: bool,
    stdinOpen: bool,
    imageUuid: string,
    workingDir: string,
    environment: map<string, string>,
    command: seq<string>,
    entryPoint: seq<string>,
    volumeDriver: string,
    stopSignal: string,
    dataVolumes: seq<string>,
    ports: seq<string>,
    privileged: bool,
    dns: seq<string>,
    dnsSearch: seq<string>,
    capAdd: seq<string>,
    capDrop: seq<string>,
    devices: seq<string>,
    memoryReservation: int64,
    blkioWeight: int64,
    blkioDeviceOptions: Blkio.BlkioOptions,
    cgroupParent: string,
    cpuPeriod: int64,
    cpuQuota: int64,
    dnsOpt: seq<string>,
    groupAdd: seq<string>,
    memorySwappiness: int64,
    oomKillDisable: bool,
    shmSize: int64,
    tmpfs: map<string, string>,
    uts: string,
    ipcMode: string,
    sysctls: map<string, string>,
    oomScoreAdj: int64,
    isolation: string,
    ulimits: seq<RancherUlimit>,
    securityOpt: seq<string>,
    pidMode: string,
    readOnly: bool,
    extraHosts: seq<string>,
    logConfig: Option<LogConfig>,
    labels: map<string, string>)

  /** The zero launch configuration the original returns beside an error. */
  function EmptyLaunchConfig(): LaunchConfig {
    LaunchConfig("", 0, "", 0, 0, "", "", false, false, "", "", map[], [], [], "", "", [], [], false,
                 [], [], [], [], [], 0, 0, map[], "", 0, 0, [], [], 0, false, 0, map[], "", "", map[], 0, "",
                 [], [], "", false, [], None, map[])
  }

  // ---- mapToMap ----

  /** `mapToMap`: a copy with exactly the same keys and values, whatever order the keys are visited in. */
  method MapToMap(m: map<string, string>) returns (r: map<string, string>)
    ensures r == m
  {
    r := map[];
    var rest := m.Keys;
    while rest != {}
      invariant rest <= m.Keys
      invariant r.Keys == m.Keys - rest
      invariant forall k | k in r :: r[k] == m[k]
      decreases rest
    {
      var k :| k in rest;
      r := r[k := m[k]];
      rest := rest - {k};
    }
    assert r.Keys == m.Keys;
  }

  // ---- volumes ----

  /** A volume as `source:destination[:mode]`, the source and its `:` left out when the source is empty. */
  function VolumeString(v: Volume): string {
    var paths := if v.source != "" then v.source + ":" + v.destination else v.destination;
    if v.accessMode != "" then paths + ":" + v.accessMode else paths
  }

  /** A volume's source is rewritten when the project has compose files and the source is no named volume. */
  predicate Rewrites(ctx: Context, v: Volume) {
    |ctx.composeFiles| > 0 && !ctx.isNamedVolume(v.source)
  }

  /**
   * One volume after source resolution: the destination and the mode are
   * untouched; a rewritten source is the part before the first `:` of the path
   * resolved against the first compose file; any other volume is unchanged.
   */
  function ResolvedVolume(ctx: Context, v: Volume): (r: Volume)
    ensures r.destination == v.destination && r.accessMode == v.accessMode
    ensures Rewrites(ctx, v) ==>
      r.source == BeforeFirst(ctx.resolvePath(VolumeString(v), ctx.composeFiles[0]), ':') && ':' !in r.source
    ensures !Rewrites(ctx, v) ==> r == v
  {
    if Rewrites(ctx, v) then
      var sourceVol := ctx.resolvePath(VolumeString(v), ctx.composeFiles[0]);
      SplitNTwo(sourceVol, ':');
      v.(source := SplitN(sourceVol, ':', 2)[0])
    else v
  }

  /** The data volumes of a service: none for a missing list, else one string per volume, in order. */
  function DataVolumes(volumes: Option<seq<Volume>>, ctx: Context): (r: seq<string>)
    ensures volumes.None? ==> r == []
    ensures volumes.Some? ==> |r| == |volumes.value|
    ensures volumes.Some? ==> forall i | 0 <= i < |r| :: r[i] == VolumeString(ResolvedVolume(ctx, volumes.value[i]))
  {
    if volumes.None? then []
    else seq(|volumes.value|, i requires 0 <= i < |volumes.value| => VolumeString(ResolvedVolume(ctx, volumes.value[i])))
  }

  /** `volumes`. */
  method Volumes(volumes: Option<seq<Volume>>, ctx: Context) returns (r: seq<string>)
    ensures r == DataVolumes(volumes, ctx)
  {
    if volumes.None? {
      return [];
    }
    var vs := volumes.value;
    r := [];
    var i := 0;
    while i < |vs|
      invariant 0 <= i <= |vs|
      invariant |r| == i
      invariant forall j | 0 <= j < i :: r[j] == VolumeString(ResolvedVolume(ctx, vs[j]))
    {
      var v := vs[i];
      var vol := v;
      if |ctx.composeFiles| > 0 && !ctx.isNamedVolume(v.source) {
        var sourceVol := ctx.resolvePath(VolumeString(v), ctx.composeFiles[0]);
        vol := vol.(source := SplitN(sourceVol, ':', 2)[0]);
      }
      r := r + [VolumeString(vol)];
      i := i + 1;
    }
  }

  // ---- tmpfsToMap ----

  /** A tmpfs entry as (path, options): cut at the first `:`, with empty options when there is none. */
  function TmpfsEntry(e: string): (string, string) {
    if ':' in e then (BeforeFirst(e, ':'), e[IndexOf(e, ':') + 1..]) else (e, "")
  }

  function TmpfsPairs(tmpfs: seq<string>): (pairs: seq<(string, string)>)
    ensures |pairs| == |tmpfs|
  {
    seq(|tmpfs|, i requires 0 <= i < |tmpfs| => TmpfsEntry(tmpfs[i]))
  }

  /** The paths the tmpfs entries name. */
  function TmpfsPaths(tmpfs: seq<string>): set<string> {
    set i | 0 <= i < |tmpfs| :: TmpfsEntry(tmpfs[i]).0
  }

  /**
   * `tmpfsToMap`: the key set is the set of paths named; each path maps to the
   * options of its last entry, so a later entry for a path overwrites an earlier one.
   */
  method TmpfsToMap(tmpfs: seq<string>) returns (r: map<string, string>)
    ensures r == ToMap(TmpfsPairs(tmpfs))
  {
    ghost var pairs := TmpfsPairs(tmpfs);
    r := map[];
    var i := 0;
    while i < |tmpfs|
      invariant 0 <= i <= |tmpfs|
      invariant r == ToMap(pairs[..i])
    {
      var v := tmpfs[i];
      var parts := SplitN(v, ':', 2);
      SplitNTwo(v, ':');
      ToMapSnoc(pairs, i);
      if |parts| == 1 {
        r := r[parts[0] := ""];
      } else if |parts| == 2 {
        r := r[parts[0] := parts[1]];
      }
      i := i + 1;
    }
    assert pairs[..i] == pairs;
  }

  /** The key set and the last-wins value of the tmpfs map. */
  lemma TmpfsMapSpec(tmpfs: seq<string>)
    ensures ToMap(TmpfsPairs(tmpfs)).Keys == TmpfsPaths(tmpfs)
    ensures forall i | 0 <= i < |tmpfs| && (forall j | i < j < |tmpfs| :: TmpfsEntry(tmpfs[j]).0 != TmpfsEntry(tmpfs[i]).0) ::
      TmpfsEntry(tmpfs[i]).0 in ToMap(TmpfsPairs(tmpfs)) && ToMap(TmpfsPairs(tmpfs))[TmpfsEntry(tmpfs[i]).0] == TmpfsEntry(tmpfs[i]).1
  {
    var pairs := TmpfsPairs(tmpfs);
    ToMapKeys(pairs);
    assert KeySet(pairs) == TmpfsPaths(tmpfs) by {
      forall p | p in TmpfsPaths(tmpfs) ensures p in KeySet(pairs) {
        var i :| 0 <= i < |tmpfs| && TmpfsEntry(tmpfs[i]).0 == p;
        assert pairs[i].0 == p;
      }
    }
    forall i | 0 <= i < |tmpfs| && (forall j | i < j < |tmpfs| :: TmpfsEntry(tmpfs[j]).0 != TmpfsEntry(tmpfs[i]).0)
      ensures TmpfsEntry(tmpfs[i]).0 in ToMap(pairs) && ToMap(pairs)[TmpfsEntry(tmpfs[i]).0] == TmpfsEntry(tmpfs[i]).1
    {
      LookupLast(pairs, i);
      ToMapLastWins(pairs, pairs[i].0);
    }
  }

  // ---- toRancherUlimit ----

  function RancherUlimits(ulimits: seq<Ulimit>): (r: seq<RancherUlimit>)
    ensures |r| == |ulimits|
    ensures forall i | 0 <= i < |r| ::
      r[i].name == ulimits[i].name && r[i].soft == ulimits[i].soft && r[i].hard == ulimits[i].hard
  {
    seq(|ulimits|, i requires 0 <= i < |ulimits| => RancherUlimit(ulimits[i].name, ulimits[i].soft, ulimits[i].hard))
  }

  /** `toRancherUlimit`: one triple per ulimit, in order, with the same name, soft and hard limits. */
  method ToRancherUlimit(ulimits: seq<Ulimit>) returns (r: seq<RancherUlimit>)
    ensures r == RancherUlimits(ulimits)
  {
    r := [];
    var i := 0;
    while i < |ulimits|
      invariant 0 <= i <= |ulimits|
      invariant r == RancherUlimits(ulimits[..i])
    {
      var u := ulimits[i];
      r := r + [RancherUlimit(u.name, u.soft, u.hard)];
      i := i + 1;
    }
    assert ulimits[..i] == ulimits;
  }

  // ---- toRancherLogOption ----

  /** `toRancherLogOption`: the driver, and a copy of the options. */
  method ToRancherLogOption(log: Log) returns (r: LogConfig)
    ensures r.driver == log.driver && r.config == log.options
  {
    var config := MapToMap(log.options);
    r := LogConfig(log.driver, config);
  }

  // ---- setupDevice ----

  /** A device string with exactly one `:` (host path and container path) gains the `rwm` permissions. */
  function WithPermissions(d: string): (r: string)
    ensures Count(d, ':') == 1 ==> r == d + ":rwm"
    ensures Count(d, ':') != 1 ==> r == d
  {
    SplitNLength(d, ':', 3);
    if |SplitN(d, ':', 3)| == 2 then d + ":rwm" else d
  }

  function DevicesWithPermissions(devices: seq<string>): (r: seq<string>)
    ensures |r| == |devices|
    ensures forall i | 0 <= i < |r| :: r[i] == WithPermissions(devices[i])
  {
    seq(|devices|, i requires 0 <= i < |devices| => WithPermissions(devices[i]))
  }

  /** `setupDevice`: the same devices in the same order, two-part ones with the default permissions appended. */
  method SetupDevice(devices: seq<string>) returns (r: seq<string>)
    ensures r == DevicesWithPermissions(devices)
  {
    r := [];
    var i := 0;
    while i < |devices|
      invariant 0 <= i <= |devices|
      invariant |r| == i
      invariant forall j | 0 <= j < i :: r[j] == WithPermissions(devices[j])
    {
      var d := devices[i];
      var tmp := d;
      var parts := SplitN(d, ':', 3);
      if |parts| == 2 {
        tmp := tmp + ":rwm";
      }
      r := r + [tmp];
      i := i + 1;
    }
  }

  // ---- Transform ----

  /** The fields the transform copies one to one. */
  ghost predicate CopiesFields(svc: ServiceConfig, lc: LaunchConfig) {
    && lc.hostname == svc.hostname
    && lc.memory == svc.memLimit
    && lc.cpuSet == svc.cpuSet
    && lc.cpuShares == svc.cpuShares
    && lc.memorySwap == svc.memSwapLimit
    && lc.domainName == svc.domainName
    && lc.user == svc.user
    && lc.tty == svc.tty
    && lc.stdinOpen == svc.stdinOpen
    && lc.workingDir == svc.workingDir
    && lc.command == svc.command
    && lc.entryPoint == svc.entrypoint
    && lc.volumeDriver == svc.volumeDriver
    && lc.stopSignal == svc.stopSignal
    && lc.ports == svc.ports
    && lc.privileged == svc.privileged
    && lc.dns == svc.dns
    && lc.dnsSearch == svc.dnsSearch
    && lc.capAdd == svc.capAdd
    && lc.capDrop == svc.capDrop
    && lc.memoryReservation == svc.memReservation
    && lc.blkioWeight == svc.blkioWeight
    && lc.cgroupParent == svc.cgroupParent
    && lc.cpuPeriod == svc.cpuPeriod
    && lc.cpuQuota == svc.cpuQuota
    && lc.dnsOpt == svc.dnsOpt
    && lc.groupAdd == svc.groupAdd
    && lc.memorySwappiness == svc.memSwappiness
    && lc.oomKillDisable == svc.oomKillDisable
    && lc.shmSize == svc.shmSize
    && lc.uts == svc.uts
    && lc.ipcMode == svc.ipc
    && lc.oomScoreAdj == svc.oomScoreAdj
    && lc.isolation == svc.isolation
    && lc.securityOpt == svc.securityOpt
    && lc.pidMode == svc.pid
    && lc.readOnly == svc.readOnly
    && lc.extraHosts == svc.extraHosts
  }

  /**
   * `Transform`. A malformed throttle rate anywhere in the five block-I/O lists
   * yields that parse error and the zero launch configuration, with no partial
   * result. Otherwise the image reference is empty for an empty image and
   * `docker:` + image for any other; the maps are copied key for key; the
   * volumes, devices, block-I/O records, tmpfs map, ulimits and log
   * configuration are derived as their own operations state; all other fields
   * are copied.
   */
  method Transform(svc: ServiceConfig, ctx: Context) returns (lc: LaunchConfig, err: Option<NumError>)
    requires Blkio.AllHaveColons(svc)
    ensures err == Blkio.BlkioError(svc)
    ensures err.Some? ==> lc == EmptyLaunchConfig()
    ensures err.None? ==> Blkio.AllWellFormed(svc)
    ensures err.None? ==> CopiesFields(svc, lc)
    ensures err.None? ==> (lc.imageUuid == "" <==> svc.image == "")
    ensures err.None? && svc.image != "" ==> lc.imageUuid == ImagePrefix + svc.image
    ensures err.None? ==> lc.environment == svc.environment && lc.sysctls == svc.sysctls && lc.labels == svc.labels
    ensures err.None? ==> lc.dataVolumes == DataVolumes(svc.volumes, ctx)
    ensures err.None? ==> lc.devices == DevicesWithPermissions(svc.devices)
    ensures err.None? ==> lc.blkioDeviceOptions == Blkio.BlkioRecords(svc)
    ensures err.None? ==> lc.tmpfs == ToMap(TmpfsPairs(svc.tmpfs))
    ensures err.None? ==> lc.ulimits == RancherUlimits(svc.ulimits)
    ensures err.None? ==> lc.logConfig == Some(LogConfig(svc.logging.driver, svc.logging.options))
  {
    var imageUuid := "";
    if svc.image != "" {
      imageUuid := ImagePrefix + svc.image;
    }
    var environment := MapToMap(svc.environment);
    var dataVolumes := Volumes(svc.volumes, ctx);
    var devices := SetupDevice(svc.devices);
    var options := Blkio.ToBlkioOptions(svc);
    if options.Failure? {
      return EmptyLaunchConfig(), Some(options.error);
    }
    Blkio.BlkioErrorNone(svc);
    var tmpfs := TmpfsToMap(svc.tmpfs);
    var sysctls := MapToMap(svc.sysctls);
    var ulimits := ToRancherUlimit(svc.ulimits);
    var logConfig := ToRancherLogOption(svc.logging);
    var labels := MapToMap(svc.labels);
    lc := LaunchConfig(
      svc.hostname, svc.memLimit, svc.cpuSet, svc.cpuShares, svc.memSwapLimit, svc.domainName, svc.user,
      svc.tty, svc.stdinOpen, imageUuid, svc.workingDir, environment, svc.command, svc.entrypoint,
      svc.volumeDriver, svc.stopSignal, dataVolumes, svc.ports, svc.privileged, svc.dns, svc.dnsSearch,
      svc.capAdd, svc.capDrop, devices, svc.memReservation, svc.blkioWeight, options.value,
      svc.cgroupParent, svc.cpuPeriod, svc.cpuQuota, svc.dnsOpt, svc.groupAdd, svc.memSwappiness,
      svc.oomKillDisable, svc.shmSize, tmpfs, svc.uts, svc.ipc, sysctls, svc.oomScoreAdj, svc.isolation,
      ulimits, svc.securityOpt, svc.pid, svc.readOnly, svc.extraHosts, Some(logConfig), labels);
    assert CopiesFields(svc, lc);
    return lc, None;
  }
}
