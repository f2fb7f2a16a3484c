/**
 * Block-I/O throttling in the transform: five lists of `path:rate` entries
 * (read bytes/s, read IOPS, write bytes/s, write IOPS, weight) are parsed and
 * merged into one record per device path.
 */
module Blkio {
  import opened Wrappers
  import opened Text
  import opened Numbers
  import opened Assoc
  import opened Config

  /** The names of the five rate kinds in a device record. */
  const ReadIops := "readIops"
  const WriteIops := "writeIops"
  const ReadBps := "readBps"
  const WriteBps := "writeBps"
  const Weight := "weight"

  /** Per device path, the rates declared for it, keyed by kind name. */
  type BlkioOptions = map<string, map<string, uint64>>

  datatype ThrottleDevice = ThrottleDevice(path: string, rate: uint64)

  /** Every entry has a `:`; the original indexes `split[1]` and fails on an entry without one. */
  predicate HasColons(entries: seq<string>) {
    forall i | 0 <= i < |entries| :: ':' in entries[i]
  }

  /** `split[0]` of a throttle entry: the text before the first `:`. */
  function PathField(entry: string): (p: string)
    ensures p == BeforeFirst(entry, ':')
  {
    SplitFirstCuts(entry, ':');
    Split(entry, ':')[0]
  }

  /** `split[1]` of a throttle entry: the text between the first and the second `:`. */
  function RateField(entry: string): (r: string)
    requires ':' in entry
    ensures r == BeforeFirst(entry[IndexOf(entry, ':') + 1..], ':')
  {
    SplitFirstCuts(entry, ':');
    Split(entry, ':')[1]
  }

  predicate Parses(entry: string)
    requires ':' in entry
  {
    ParseUint(RateField(entry)).Success?
  }

  predicate WellFormed(entries: seq<string>)
    requires HasColons(entries)
  {
    forall i | 0 <= i < |entries| :: Parses(entries[i])
  }

  /** The record one well-formed entry stands for. */
  function Device(entry: string): ThrottleDevice
    requires ':' in entry && Parses(entry)
  {
    ThrottleDevice(PathField(entry), ParseUint(RateField(entry)).value)
  }

  /** The records of a well-formed list, one per entry, in order. */
  function Devices(entries: seq<string>): (ds: seq<ThrottleDevice>)
    requires HasColons(entries) && WellFormed(entries)
    ensures |ds| == |entries|
    ensures forall i | 0 <= i < |entries| ::
      ds[i].path == BeforeFirst(entries[i], ':') && ds[i].rate == DecimalValue(RateField(entries[i]))
  {
    seq(|entries|, i requires 0 <= i < |entries| => Device(entries[i]))
  }

  /** The parse error of the first malformed entry, if any. */
  function FirstError(entries: seq<string>): Option<NumError>
    requires HasColons(entries)
  {
    if entries == [] then None
    else if !Parses(entries[0]) then Some(ParseUint(RateField(entries[0])).error)
    else FirstError(entries[1..])
  }

  /** A list has no first error exactly when it is well formed. */
  lemma {:induction false} FirstErrorNone(entries: seq<string>)
    requires HasColons(entries)
    ensures FirstError(entries).None? <==> WellFormed(entries)
  {
    if entries != [] {
      FirstErrorNone(entries[1..]);
      if Parses(entries[0]) && !WellFormed(entries) {
        var i :| 0 <= i < |entries| && !Parses(entries[i]);
        assert entries[1..][i - 1] == entries[i];
      }
    }
  }

  /** When entries before i parse and entry i does not, entry i's error is the first error. */
  lemma {:induction false} FirstErrorAt(entries: seq<string>, i: nat)
    requires HasColons(entries) && i < |entries|
    requires forall j | 0 <= j < i :: Parses(entries[j])
    requires !Parses(entries[i])
    ensures FirstError(entries) == Some(ParseUint(RateField(entries[i])).error)
  {
    if i > 0 {
      assert Parses(entries[0]);
      assert entries[1..][i - 1] == entries[i];
      FirstErrorAt(entries[1..], i - 1);
    }
  }

  /**
   * `getThrottleDevice`: one record per entry, in order, each holding the text
   * before the first `:` and the base-10 value of the next component; the
   * first entry whose rate does not parse stops it with that parse error.
   */
  method GetThrottleDevice(entries: seq<string>) returns (r: Result<seq<ThrottleDevice>, NumError>)
    requires HasColons(entries)
    ensures r.Success? <==> WellFormed(entries)
    ensures r.Success? ==> r.value == Devices(entries)
    ensures r.Failure? ==> FirstError(entries) == Some(r.error)
  {
    var devices: seq<ThrottleDevice> := [];
    var i := 0;
    while i < |entries|
      invariant 0 <= i <= |entries|
      invariant |devices| == i
      invariant forall j | 0 <= j < i :: Parses(entries[j]) && devices[j] == Device(entries[j])
    {
      var rate := ParseUint(RateField(entries[i]));
      if rate.Failure? {
        FirstErrorAt(entries, i);
        FirstErrorNone(entries);
        return Failure(rate.error);
      }
      devices := devices + [ThrottleDevice(PathField(entries[i]), rate.value)];
      i := i + 1;
    }
    assert WellFormed(entries);
    assert devices == Devices(entries);
    return Success(devices);
  }

  /** The (path, rate) pairs of a list of records, in order. */
  function Rates(devices: seq<ThrottleDevice>): (pairs: seq<(string, uint64)>)
    ensures |pairs| == |devices|
  {
    seq(|devices|, i requires 0 <= i < |devices| => (devices[i].path, devices[i].rate))
  }

  /** The record of `path` in `opts`, or an empty one. */
  function Inner(opts: BlkioOptions, path: string): map<string, uint64> {
    if path in opts then opts[path] else map[]
  }

  /** One `opts[path][kind] = rate`, creating the record first when the path is new. */
  function Put(opts: BlkioOptions, path: string, kind: string, rate: uint64): BlkioOptions {
    opts[path := Inner(opts, path)[kind := rate]]
  }

  /** Writing a list of (path, rate) pairs of one kind into `opts`, in order. */
  function Merge(opts: BlkioOptions, pairs: seq<(string, uint64)>, kind: string): BlkioOptions {
    if pairs == [] then opts
    else Put(Merge(opts, pairs[..|pairs| - 1], kind), pairs[|pairs| - 1].0, kind, pairs[|pairs| - 1].1)
  }

  /** A record with `kind` set to `rate` when there is one. */
  function Overwrite(record: map<string, uint64>, kind: string, rate: Option<uint64>): map<string, uint64> {
    if rate.Some? then record[kind := rate.value] else record
  }

  /**
   * After merging, a path has a record when it had one or occurs in the pairs;
   * a path that occurs gets, under `kind`, the rate of its last occurrence, and
   * every other entry is as before.
   */
  lemma {:induction false} MergeSpec(opts: BlkioOptions, pairs: seq<(string, uint64)>, kind: string, p: string)
    ensures p in Merge(opts, pairs, kind) <==> p in opts || Lookup(pairs, p).Some?
    ensures p in Merge(opts, pairs, kind) ==> Merge(opts, pairs, kind)[p] == Overwrite(Inner(opts, p), kind, Lookup(pairs, p))
  {
    if pairs != [] {
      MergeSpec(opts, pairs[..|pairs| - 1], kind, p);
    }
  }

  /** One loop of `toBlkioOptions`: the records of one kind written into `opts`. */
  method Fill(opts: BlkioOptions, devices: seq<ThrottleDevice>, kind: string) returns (r: BlkioOptions)
    ensures r == Merge(opts, Rates(devices), kind)
  {
    r := opts;
    var i := 0;
    while i < |devices|
      invariant 0 <= i <= |devices|
      invariant r == Merge(opts, Rates(devices)[..i], kind)
    {
      var d := devices[i];
      if d.path !in r {
        r := r[d.path := map[]];
      }
      var record: map<string, uint64> := r[d.path];
      r := r[d.path := record[kind := d.rate]];
      assert Rates(devices)[..i + 1][..i] == Rates(devices)[..i];
      i := i + 1;
    }
    assert Rates(devices)[..i] == Rates(devices);
  }

  /** Groups of (kind, pairs), as the five lists of a service. */
  type Groups = seq<(string, seq<(string, uint64)>)>

  predicate DistinctKinds(gs: Groups) {
    forall i, j | 0 <= i < j < |gs| :: gs[i].0 != gs[j].0
  }

  /** Merging the groups into `opts`, first group first. */
  function AggregateFrom(opts: BlkioOptions, gs: Groups): BlkioOptions
    decreases |gs|
  {
    if gs == [] then opts
    else AggregateFrom(Merge(opts, gs[0].1, gs[0].0), gs[1..])
  }

  /** The kinds whose group mentions `p`. */
  function KindsAt(gs: Groups, p: string): set<string> {
    set i | 0 <= i < |gs| && Lookup(gs[i].1, p).Some? :: gs[i].0
  }

  /** Every path mentioned by some group. */
  function AllPaths(gs: Groups): set<string> {
    set i, p | 0 <= i < |gs| && p in KeySet(gs[i].1) :: p
  }

  lemma KindsAtCons(gs: Groups, p: string)
    requires gs != []
    ensures KindsAt(gs, p) == (if Lookup(gs[0].1, p).Some? then {gs[0].0} else {}) + KindsAt(gs[1..], p)
  {
    var rest := KindsAt(gs[1..], p);
    forall k | k in rest ensures k in KindsAt(gs, p) {
      var i :| 0 <= i < |gs[1..]| && Lookup(gs[1..][i].1, p).Some? && gs[1..][i].0 == k;
      assert gs[i + 1] == gs[1..][i];
    }
    forall k | k in KindsAt(gs, p) && k != gs[0].0 ensures k in rest {
      var i :| 0 <= i < |gs| && Lookup(gs[i].1, p).Some? && gs[i].0 == k;
      assert gs[1..][i - 1] == gs[i];
    }
  }

  /**
   * Merging several groups: a path has a record when it had one or some group
   * mentions it, and its record gains exactly the kinds whose groups mention it.
   */
  lemma {:induction false} AggregateFromKeys(opts: BlkioOptions, gs: Groups, p: string)
    ensures p in AggregateFrom(opts, gs) <==> p in opts || KindsAt(gs, p) != {}
    ensures p in AggregateFrom(opts, gs) ==>
      AggregateFrom(opts, gs)[p].Keys == Inner(opts, p).Keys + KindsAt(gs, p)
    decreases |gs|
  {
    if gs != [] {
      MergeSpec(opts, gs[0].1, gs[0].0, p);
      KindsAtCons(gs, p);
      AggregateFromKeys(Merge(opts, gs[0].1, gs[0].0), gs[1..], p);
    }
  }

  /** Merging groups none of which has kind `k` leaves every `k` entry as it was. */
  lemma {:induction false} AggregateFromKeeps(opts: BlkioOptions, gs: Groups, p: string, k: string)
    requires forall j | 0 <= j < |gs| :: gs[j].0 != k
    requires p in opts && k in opts[p]
    ensures p in AggregateFrom(opts, gs) && k in AggregateFrom(opts, gs)[p]
    ensures AggregateFrom(opts, gs)[p][k] == opts[p][k]
    decreases |gs|
  {
    if gs != [] {
      var m := Merge(opts, gs[0].1, gs[0].0);
      MergeSpec(opts, gs[0].1, gs[0].0, p);
      forall j | 0 <= j < |gs[1..]| ensures gs[1..][j].0 != k {
        assert gs[1..][j] == gs[j + 1];
      }
      AggregateFromKeeps(m, gs[1..], p, k);
    }
  }

  /** With distinct kinds, a group that mentions `p` leaves, under its kind, the rate of p's last occurrence in it. */
  lemma {:induction false} AggregateFromValue(opts: BlkioOptions, gs: Groups, p: string, i: nat)
    requires DistinctKinds(gs) && i < |gs|
    requires Lookup(gs[i].1, p).Some?
    ensures p in AggregateFrom(opts, gs) && gs[i].0 in AggregateFrom(opts, gs)[p]
    ensures Lookup(gs[i].1, p) == Some(AggregateFrom(opts, gs)[p][gs[i].0])
    decreases |gs|
  {
    var m := Merge(opts, gs[0].1, gs[0].0);
    var rest := gs[1..];
    MergeSpec(opts, gs[0].1, gs[0].0, p);
    if i == 0 {
      forall j | 0 <= j < |rest| ensures rest[j].0 != gs[0].0 {
        assert rest[j] == gs[j + 1];
      }
      AggregateFromKeeps(m, rest, p, gs[0].0);
    } else {
      assert DistinctKinds(rest) by {
        forall a, b | 0 <= a < b < |rest| ensures rest[a].0 != rest[b].0 {
          assert rest[a] == gs[a + 1] && rest[b] == gs[b + 1];
        }
      }
      assert rest[i - 1] == gs[i];
      AggregateFromValue(m, rest, p, i - 1);
    }
  }

  /** A path is mentioned by some group exactly when some kind of it is. */
  lemma AllPathsKinds(gs: Groups, p: string)
    ensures p in AllPaths(gs) <==> KindsAt(gs, p) != {}
  {
    if p in AllPaths(gs) {
      var i :| 0 <= i < |gs| && p in KeySet(gs[i].1);
      LookupDefined(gs[i].1, p);
      assert gs[i].0 in KindsAt(gs, p);
    }
    if KindsAt(gs, p) != {} {
      var k :| k in KindsAt(gs, p);
      var i :| 0 <= i < |gs| && Lookup(gs[i].1, p).Some? && gs[i].0 == k;
      LookupDefined(gs[i].1, p);
    }
  }

  /** With distinct kinds, a group's kind is among a path's kinds exactly when that group mentions the path. */
  lemma KindsAtDistinct(gs: Groups, p: string, i: nat)
    requires DistinctKinds(gs) && i < |gs|
    ensures gs[i].0 in KindsAt(gs, p) <==> p in KeySet(gs[i].1)
  {
    LookupDefined(gs[i].1, p);
    if gs[i].0 in KindsAt(gs, p) {
      var j :| 0 <= j < |gs| && Lookup(gs[j].1, p).Some? && gs[j].0 == gs[i].0;
      assert j == i;
    }
  }

  /** The five lists of a service, in the order the original reads them. */
  function ThrottleLists(svc: ServiceConfig): seq<seq<string>> {
    [svc.deviceReadBps, svc.deviceReadIOps, svc.deviceWriteBps, svc.deviceWriteIOps, svc.blkioWeightDevice]
  }

  /** The kind name each of the five lists fills, in the same order. */
  function KindNames(): seq<string> {
    [ReadBps, ReadIops, WriteBps, WriteIops, Weight]
  }

  predicate AllHaveColons(svc: ServiceConfig) {
    && HasColons(svc.deviceReadBps)
    && HasColons(svc.deviceReadIOps)
    && HasColons(svc.deviceWriteBps)
    && HasColons(svc.deviceWriteIOps)
    && HasColons(svc.blkioWeightDevice)
  }

  predicate AllWellFormed(svc: ServiceConfig)
    requires AllHaveColons(svc)
  {
    && WellFormed(svc.deviceReadBps)
    && WellFormed(svc.deviceReadIOps)
    && WellFormed(svc.deviceWriteBps)
    && WellFormed(svc.deviceWriteIOps)
    && WellFormed(svc.blkioWeightDevice)
  }

  /** The first error in the first list, in reading order, that has one. */
  function BlkioError(svc: ServiceConfig): Option<NumError>
    requires AllHaveColons(svc)
  {
    if FirstError(svc.deviceReadBps).Some? then FirstError(svc.deviceReadBps)
    else if FirstError(svc.deviceReadIOps).Some? then FirstError(svc.deviceReadIOps)
    else if FirstError(svc.deviceWriteBps).Some? then FirstError(svc.deviceWriteBps)
    else if FirstError(svc.deviceWriteIOps).Some? then FirstError(svc.deviceWriteIOps)
    else FirstError(svc.blkioWeightDevice)
  }

  /** No list has a first error exactly when all five are well formed. */
  lemma BlkioErrorNone(svc: ServiceConfig)
    requires AllHaveColons(svc)
    ensures BlkioError(svc).None? <==> AllWellFormed(svc)
  {
    FirstErrorNone(svc.deviceReadBps);
    FirstErrorNone(svc.deviceReadIOps);
    FirstErrorNone(svc.deviceWriteBps);
    FirstErrorNone(svc.deviceWriteIOps);
    FirstErrorNone(svc.blkioWeightDevice);
  }

  /** The five (kind, pairs) groups of a service whose lists are all well formed. */
  function ServiceGroups(svc: ServiceConfig): (gs: Groups)
    requires AllHaveColons(svc) && AllWellFormed(svc)
    ensures |gs| == 5 && DistinctKinds(gs)
    ensures forall i | 0 <= i < 5 :: gs[i].0 == KindNames()[i] && gs[i].1 == Rates(Devices(ThrottleLists(svc)[i]))
  {
    [(ReadBps, Rates(Devices(svc.deviceReadBps))),
     (ReadIops, Rates(Devices(svc.deviceReadIOps))),
     (WriteBps, Rates(Devices(svc.deviceWriteBps))),
     (WriteIops, Rates(Devices(svc.deviceWriteIOps))),
     (Weight, Rates(Devices(svc.blkioWeightDevice)))]
  }

  /** The merged records of a service whose five lists are well formed. */
  function BlkioRecords(svc: ServiceConfig): BlkioOptions
    requires AllHaveColons(svc) && AllWellFormed(svc)
  {
    AggregateFrom(map[], ServiceGroups(svc))
  }

  /**
   * `toBlkioOptions`: it fails, with the first parse error in reading order,
   * exactly when some list is malformed; otherwise it yields the merged records.
   */
  method ToBlkioOptions(svc: ServiceConfig) returns (r: Result<BlkioOptions, NumError>)
    requires AllHaveColons(svc)
    ensures r.Success? <==> AllWellFormed(svc)
    ensures r.Failure? ==> BlkioError(svc) == Some(r.error)
    ensures r.Success? ==> r.value == BlkioRecords(svc)
  {
    FirstErrorNone(svc.deviceReadBps);
    FirstErrorNone(svc.deviceReadIOps);
    FirstErrorNone(svc.deviceWriteBps);
    FirstErrorNone(svc.deviceWriteIOps);
    FirstErrorNone(svc.blkioWeightDevice);
    var readBps := GetThrottleDevice(svc.deviceReadBps);
    if readBps.Failure? {
      return Failure(readBps.error);
    }
    var readIOps := GetThrottleDevice(svc.deviceReadIOps);
    if readIOps.Failure? {
      return Failure(readIOps.error);
    }
    var writeBps := GetThrottleDevice(svc.deviceWriteBps);
    if writeBps.Failure? {
      return Failure(writeBps.error);
    }
    var writeIOps := GetThrottleDevice(svc.deviceWriteIOps);
    if writeIOps.Failure? {
      return Failure(writeIOps.error);
    }
    var weight := GetThrottleDevice(svc.blkioWeightDevice);
    if weight.Failure? {
      return Failure(weight.error);
    }

    var opts: BlkioOptions := map[];
    opts := Fill(opts, readBps.value, ReadBps);
    opts := Fill(opts, readIOps.value, ReadIops);
    opts := Fill(opts, writeBps.value, WriteBps);
    opts := Fill(opts, writeIOps.value, WriteIops);
    opts := Fill(opts, weight.value, Weight);

    RecordsByFill(svc, readBps.value, readIOps.value, writeBps.value, writeIOps.value, weight.value, opts);
    return Success(opts);
  }

  /** The five fills of `toBlkioOptions`, one per list in reading order, build the merged records. */
  lemma RecordsByFill(svc: ServiceConfig, rb: seq<ThrottleDevice>, ri: seq<ThrottleDevice>,
                      wb: seq<ThrottleDevice>, wi: seq<ThrottleDevice>, w: seq<ThrottleDevice>, opts: BlkioOptions)
    requires AllHaveColons(svc) && AllWellFormed(svc)
    requires rb == Devices(svc.deviceReadBps) && ri == Devices(svc.deviceReadIOps)
    requires wb == Devices(svc.deviceWriteBps) && wi == Devices(svc.deviceWriteIOps)
    requires w == Devices(svc.blkioWeightDevice)
    requires opts ==
      Merge(Merge(Merge(Merge(Merge(map[], Rates(rb), ReadBps), Rates(ri), ReadIops), Rates(wb), WriteBps), Rates(wi), WriteIops), Rates(w), Weight)
    ensures opts == BlkioRecords(svc)
  {
    AggregateFive(ServiceGroups(svc));
  }

  /** Merging five groups one after another is AggregateFrom over them, from empty. */
  lemma AggregateFive(gs: Groups)
    requires |gs| == 5
    ensures AggregateFrom(map[], gs) ==
      Merge(Merge(Merge(Merge(Merge(map[], gs[0].1, gs[0].0), gs[1].1, gs[1].0), gs[2].1, gs[2].0), gs[3].1, gs[3].0), gs[4].1, gs[4].0)
  {
    var m1 := Merge(map[], gs[0].1, gs[0].0);
    var m2 := Merge(m1, gs[1].1, gs[1].0);
    var m3 := Merge(m2, gs[2].1, gs[2].0);
    var m4 := Merge(m3, gs[3].1, gs[3].0);
    var m5 := Merge(m4, gs[4].1, gs[4].0);
    assert AggregateFrom(m5, gs[5..]) == m5;
    assert AggregateFrom(m4, gs[4..]) == AggregateFrom(m5, gs[5..]);
    assert AggregateFrom(m3, gs[3..]) == AggregateFrom(m4, gs[4..]);
    assert AggregateFrom(m2, gs[2..]) == AggregateFrom(m3, gs[3..]);
    assert AggregateFrom(m1, gs[1..]) == AggregateFrom(m2, gs[2..]);
  }

  /**
   * The merged records of a service: the key set is the union of the paths of
   * the five lists; a path's record holds a kind exactly when that kind's list
   * mentions the path (never a default zero), with the rate of the path's last
   * occurrence in that list.
   */
  lemma BlkioRecordsShape(svc: ServiceConfig)
    requires AllHaveColons(svc) && AllWellFormed(svc)
    ensures BlkioRecords(svc).Keys == AllPaths(ServiceGroups(svc))
    ensures forall p, i | p in BlkioRecords(svc) && 0 <= i < 5 ::
      (KindNames()[i] in BlkioRecords(svc)[p] <==> p in KeySet(ServiceGroups(svc)[i].1))
    ensures forall p | p in BlkioRecords(svc) :: BlkioRecords(svc)[p].Keys <= {ReadBps, ReadIops, WriteBps, WriteIops, Weight}
    ensures forall p, i | 0 <= i < 5 && p in KeySet(ServiceGroups(svc)[i].1) ::
      p in BlkioRecords(svc) && Lookup(ServiceGroups(svc)[i].1, p) == Some(BlkioRecords(svc)[p][KindNames()[i]])
  {
    var gs := ServiceGroups(svc);
    var a := BlkioRecords(svc);
    forall p ensures p in a <==> p in AllPaths(gs) {
      AggregateFromKeys(map[], gs, p);
      AllPathsKinds(gs, p);
    }
    forall p, i | p in a && 0 <= i < 5 ensures KindNames()[i] in a[p] <==> p in KeySet(gs[i].1) {
      AggregateFromKeys(map[], gs, p);
      KindsAtDistinct(gs, p, i);
    }
    forall p | p in a ensures a[p].Keys <= {ReadBps, ReadIops, WriteBps, WriteIops, Weight} {
      AggregateFromKeys(map[], gs, p);
    }
    forall p, i | 0 <= i < 5 && p in KeySet(gs[i].1)
      ensures p in a && Lookup(gs[i].1, p) == Some(a[p][KindNames()[i]])
    {
      LookupDefined(gs[i].1, p);
      AggregateFromValue(map[], gs, p, i);
    }
  }
}
