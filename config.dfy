/**
 * The parts of a compose service configuration that the transform reads.
 * The YAML wrapper types of the original (string-or-int, map-or-slice,
 * string-or-slice, ulimits, volumes) are taken as already normalised:
 * numbers, string lists, string maps.
 */
module Config {
  import opened Wrappers
  import opened Numbers

  /** One `source:destination[:mode]` volume declaration. */
  datatype Volume = Volume(source: string, destination: string, accessMode: string)

  /** One ulimit declaration: a name with a soft and a hard limit. */
  datatype Ulimit = Ulimit(name: string, soft: int64, hard: int64)

  /** The `logging` block: a driver name and its options. */
  datatype Log = Log(driver: string, options: map<string, string>)

  datatype ServiceConfig = ServiceConfig(
    blkioWeight: int64,
    blkioWeightDevice: seq<string>,
    capAdd: seq<string>,
    capDrop: seq<string>,
    cpuPeriod: int64,
    cpuSet: string,
    cpuShares: int64,
    cpuQuota: int64,
    command: seq<string>,
    cgroupParent: string,
    deviceReadBps: seq<string>,
    deviceReadIOps: seq<string>,
    devices: seq<string>,
    deviceWriteBps: seq<string>,
    deviceWriteIOps: seq<string>,
    dns: seq<string>,
    dnsOpt: seq<string>,
    dnsSearch: seq<string>,
    domainName: string,
    entrypoint: seq<string>,
    environment: map<string, string>,
    extraHosts: seq<string>,
    groupAdd: seq<string>,
    image: string,
    isolation: string,
    hostname: string,
    ipc: string,
    labels: map<string, string>,
    logging: Log,
    memLimit: int64,
    memReservation: int64,
    memSwapLimit: int64,
    memSwappiness: int64,
    oomKillDisable: bool,
    oomScoreAdj: int64,
    pid: string,
    ports: seq<string>,
    privileged: bool,
    securityOpt: seq<string>,
    shmSize: int64,
    stopSignal: string,
    sysctls: map<string, string>,
    tmpfs: seq<string>,
    volumeDriver: string,
    /** `None` is the original's nil volume list; `Some([])` an empty one. */
    volumes: Option<seq<Volume>>,
    uts: string,
    readOnly: bool,
    stdinOpen: bool,
    tty: bool,
    user: string,
    workingDir: string,
    ulimits: seq<Ulimit>
  )
}
