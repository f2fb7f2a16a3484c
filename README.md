# Rancher compose executor: service transform and stack handlers

This project models three parts of the Rancher compose executor in Dafny:

- **The service transform.** `Transform` turns a compose service
  configuration into a Rancher launch configuration. Most fields are copied
  one to one. Several are derived:
  - the image reference gets the `docker:` prefix;
  - the data volumes get their sources resolved against the first compose file;
  - two-part device strings get the default `rwm` permissions;
  - the tmpfs entries become a path-to-options map;
  - the ulimits and the log configuration are copied;
  - five lists of `path:rate` block-I/O throttle entries are parsed with Go's
    `strconv.ParseUint` and merged into one record per device path.
- **The stack handlers.** `CreateStack` and `UpdateStack` resolve the stack and
  its cluster, build the project, announce "Creating stack", run Create and
  then Up, and turn the outcome into a reply: an empty reply on success, a
  "waiting" reply when the cluster is not ready, nothing on a timeout, and an
  error reply otherwise.
- **Project construction.** This covers the variable map taken from the stack's
  environment, the upgrade's variables overlaid on it, the account's schema
  URL, and the context handed to the project constructor.

Layout:

- `wrappers.dfy`: `Option` and `Result`.
- `text.dfy`: Go's `strings.Index`, `Split`, `SplitN` and `Join` for a
  one-character separator, with their length and round-trip laws.
- `numbers.dfy`: the 64-bit integer ranges and `strconv.ParseUint(s, 10, 64)`.
- `assoc.dfy`: last-write-wins association lists, as produced by a loop of map
  assignments.
- `config.dfy`: the service configuration fields the transform reads.
- `blkio.dfy`: `getThrottleDevice` and `toBlkioOptions`.
- `transform.dfy`: `Transform` and its helpers.
- `handler.dfy`: `CreateStack`, `UpdateStack`, `doUp` and `stackUp`.
  - Each remote call is an outcome fixed in advance (`Api`).
  - The calls and replies made are returned as a trace.
- `project.dfy`: `createVariableMap`, `constructProject` and
  `constructProjectUpgrade`.
  - The project constructor is a given function (`newProject`).

The loops in the Go code are methods with loop invariants. Each is proved
against a specification function, and the laws the original relies on are
lemmas about those functions.

## Model

| member | source | states |
|---|---|---|
| Text.IndexOf | transform/transform.go:186 | The index of the first separator, or the length when there is none; no separator comes before it. |
| Text.IndexOfFound | transform/transform.go:204-208 | The index falls short of the end exactly when the separator occurs. |
| Text.BeforeFirst | transform/transform.go:101 | The text before the first separator. It is a prefix of the input, holds no separator, and is followed by the separator when one occurs. |
| Text.SplitLength | transform/transform.go:186-187 | `strings.Split` gives one part per separator, plus one. |
| Text.SplitJoin | transform/transform.go:186 | Joining the parts of `Split` with the separator gives back the input, and no part contains the separator. |
| Text.SplitNLength | transform/transform.go:233-234 | `strings.SplitN(s, sep, n)` gives min(n, separators + 1) parts. |
| Text.SplitNJoin | transform/transform.go:204 | Joining the parts of `SplitN` with the separator gives back the input. |
| Text.SplitFirstCuts | transform/transform.go:186-193 | The first part of `Split` is the text before the first separator. When a separator occurs there is a second part: the text between the first and the second separator. |
| Text.SplitNTwo | transform/transform.go:204-208 | `SplitN(s, sep, 2)` has two parts exactly when a separator occurs: the text before it and all the rest. Otherwise it has one part, the whole input. |
| Numbers.ParseUint | transform/transform.go:187 | Success exactly on a non-empty string of decimal digits whose value is at most 2^64 - 1, and the result is that value. Every failure is a `NumError` naming `ParseUint` and the input. The empty string is a syntax error; a digit string too large for 64 bits is a range error. |
| Numbers.ScanDigitsCorrect | transform/transform.go:187 | The left-to-right digit scan succeeds exactly on all-digit input that fits in 64 bits, and then returns its decimal value. |
| Assoc.LookupDefined | transform/transform.go:201-211 | After a run of map assignments, a key is defined exactly when some assignment wrote it. |
| Assoc.LookupLast | transform/transform.go:201-211 | A key written by no later assignment holds the value of that assignment. |
| Assoc.ToMapLastWins | transform/transform.go:201-211 | The built map holds, for each key, the value of its last assignment. |
| Assoc.ToMapKeys | transform/transform.go:201-211 | The built map's keys are exactly the keys assigned. |
| Blkio.PathField | transform/transform.go:186-193 | `split[0]` of a throttle entry is the text before its first `:`. |
| Blkio.RateField | transform/transform.go:186-187 | `split[1]` of a throttle entry is the text between its first and second `:`. |
| Blkio.FirstErrorNone | transform/transform.go:185-190 | A throttle list has no first parse error exactly when every rate parses. |
| Blkio.FirstErrorAt | transform/transform.go:185-190 | The parse error of the first entry whose rate does not parse is the list's error. |
| Blkio.Devices | transform/transform.go:192-195 | One record per entry, in order: the path is the text before the first `:` and the rate is the decimal value of the rate field. |
| Blkio.GetThrottleDevice | transform/transform.go:183-199 | Succeeds exactly when every rate parses. On success it gives the entries' records (`Devices`). On failure it gives the error of the first bad entry. |
| Blkio.MergeSpec | transform/transform.go:136-142 | After one kind's loop, a path has a record when it had one before or occurs in the list. A listed path gets the rate of its last occurrence under that kind, and its other kinds are kept. |
| Blkio.Fill | transform/transform.go:136-174 | One of the five loops, creating a path's record on first sight. It equals the merge of the list's (path, rate) pairs under its kind. |
| Blkio.AggregateFromKeys | transform/transform.go:136-174 | After all five loops, the paths with a record are the paths already present plus every path listed in any group. A path's record has its earlier kinds plus every kind whose group lists the path. |
| Blkio.AggregateFromKeeps | transform/transform.go:136-174 | A kind that no group writes for a path keeps its earlier value. |
| Blkio.AggregateFromValue | transform/transform.go:136-174 | A kind written for a path holds the rate of the path's last entry in that kind's group. |
| Blkio.BlkioErrorNone | transform/transform.go:111-134 | There is no block-I/O error exactly when all five lists parse. |
| Blkio.ServiceGroups | transform/transform.go:136-174 | The five groups in loop order (readBps, readIops, writeBps, writeIops, weight), each with distinct kind names and each with its list's (path, rate) pairs. |
| Blkio.ToBlkioOptions | transform/transform.go:108-181 | Succeeds exactly when all five lists parse. On failure it gives the first error in the order the lists are read. On success the records equal the five-group aggregate. |
| Blkio.BlkioRecordsShape | transform/transform.go:136-180 | The record paths are exactly the paths in any list. A kind is in a path's record exactly when that kind's list names the path, and it then holds the rate of the path's last entry there. Records hold only the five kind names. |
| Transform.MapToMap | transform/transform.go:84-90 | The copy has the same keys and the same values, whatever order the keys are visited in. |
| Transform.ResolvedVolume | transform/transform.go:97-102 | Destination and access mode are never changed. With compose files and a source that is not a named volume, the source becomes the part before the first `:` of the resolved path, and contains no `:`. Every other volume is unchanged. |
| Transform.DataVolumes | transform/transform.go:92-106 | A missing volume list gives no volumes. Otherwise there is one string per volume, in order, each from the resolved volume. |
| Transform.Volumes | transform/transform.go:92-106 | The loop yields exactly the data volumes of the specification. |
| Transform.TmpfsToMap | transform/transform.go:201-212 | The loop yields the map built by assigning each entry's (path, options) pair in order. The path is the text before the first `:`; the options are the text after it, or empty when the entry has none. |
| Transform.TmpfsMapSpec | transform/transform.go:201-212 | The tmpfs map's keys are exactly the paths named. A path maps to the options of its last entry, so a later entry for a path overwrites an earlier one. |
| Transform.RancherUlimits | transform/transform.go:214-220 | One triple per ulimit, in order, each with that ulimit's name and soft and hard limits. |
| Transform.ToRancherUlimit | transform/transform.go:214-220 | The loop yields exactly those triples. |
| Transform.ToRancherLogOption | transform/transform.go:222-227 | The driver is kept and the options are copied key for key. |
| Transform.WithPermissions | transform/transform.go:232-236 | A device string with exactly one `:` gets `:rwm` appended. Any other device string is unchanged. |
| Transform.DevicesWithPermissions | transform/transform.go:229-240 | One device per input device, in order, each with the permission rule applied. |
| Transform.SetupDevice | transform/transform.go:229-240 | The loop yields exactly those devices. |
| Transform.Transform | transform/transform.go:24-82 | The error is the first block-I/O parse error, and with an error the launch configuration is the zero value. Without an error: the listed fields are copied; the image reference is empty exactly for an empty image and is `docker:` + image otherwise; environment, sysctls and labels are equal maps; volumes, devices, block-I/O records, tmpfs, ulimits and the log configuration equal their specifications. |
| StackHandler.StackUp | executor/handlers/handler.go:48-83 | The error and trace are those of `StackUpOutcome`. A failed or empty stack lookup, cluster lookup or project construction stops at that step, with the matching error (none, for no project). Otherwise it announces "Creating stack", starts the heartbeat and calls Create. When Create succeeds and Up is forced it calls Up, whose result is then the result. The heartbeat stops last. |
| StackHandler.DoUp | executor/handlers/handler.go:24-46 | The error and trace are `stackUp`'s outcome followed by its reply. Success sends the empty reply and returns its result. Cluster-not-ready sends the waiting reply and returns no error. A timeout sends nothing and returns the error. Any other error sends an error reply with its text and returns the error. |
| StackHandler.CreateStack | executor/handlers/handler.go:16-18 | The outcome of `doUp` with Up forced. |
| StackHandler.UpdateStack | executor/handlers/handler.go:20-22 | The outcome of `doUp` with Up forced, the same as create. |
| StackHandler.NoStackStopsEarly | executor/handlers/handler.go:49-55 | Without a stack, only the lookup happens and an error is returned. A lookup error is returned unchanged. With no error but no stack, the error is "Failed to find stack". |
| StackHandler.NoClusterStopsEarly | executor/handlers/handler.go:57-63 | With a stack but no cluster, only the stack and cluster lookups happen and an error is returned: the lookup's own error, or "Failed to find cluster" when the lookup found nothing. |
| StackHandler.UnbuiltOutcome | executor/handlers/handler.go:65-68 | When construction yields no project, the trace ends with the construction attempt. A construction error is returned as is; no project and no error returns no error. |
| StackHandler.BuiltTrace | executor/handlers/handler.go:49-83 | With a project built, the trace is: the two lookups, the construction, the "Creating stack" announcement, the heartbeat's start and Create. Then comes Up, exactly when Create succeeded and Up is forced, and the heartbeat's stop. |
| StackHandler.UnbuiltTrace | executor/handlers/handler.go:49-68 | Without a project, the trace holds only the lookups and the construction attempt. |
| StackHandler.CreatingAnnouncedOnce | executor/handlers/handler.go:70-74 | "Creating stack" is announced at most once, and Create runs at most once. |
| StackHandler.CreatingAnnouncedBeforeCreate | executor/handlers/handler.go:65-74 | "Creating stack" is announced exactly when Create runs, and always before it. |
| StackHandler.UpOnlyAfterCreate | executor/handlers/handler.go:74-81 | Up is called exactly when Create was called and succeeded with Up forced, and its result is then the result. A failed Create's error is the result. |
| StackHandler.HeartbeatStops | executor/handlers/handler.go:72 | The heartbeat is stopped exactly when it was started, as the last step. |
| StackHandler.ClusterNotReadyIsSoft | executor/handlers/handler.go:33-36 | Cluster-not-ready returns no error. It adds only the waiting reply, and the trace has no error reply. |
| StackHandler.TimeoutIsSilent | executor/handlers/handler.go:37-41 | A timeout is returned, no reply is added, and the trace has no error reply and no empty reply. |
| StackHandler.FailureIsReported | executor/handlers/handler.go:37-41 | Any other failure is returned, and the last step is an error reply carrying its text. |
| StackHandler.SuccessSendsEmptyReply | executor/handlers/handler.go:44-45 | Without an error, the last step is the event's only empty reply, and its result is returned. |
| StackProject.CreateVariableMap | executor/handlers/project.go:82-101 | The variables have exactly the stack environment's names and values. |
| StackProject.Overlay | executor/handlers/project.go:19-21 | Assigning the upgrade's variables over the stack's gives their union, with the upgrade winning on shared names. |
| StackProject.SchemaUrl | executor/handlers/project.go:67 | The schema URL is the base URL, then `/projects/`, then the account id, then `/schemas`: each piece can be read back from its place. |
| StackProject.ConstructProject | executor/handlers/project.go:50-80 | The context has the stack's name, compose files, environment, credentials and account schema URL, and is not an upgrade. A constructor error gives neither context nor project. |
| StackProject.ConstructProjectUpgrade | executor/handlers/project.go:13-48 | The context has the upgrade's compose files, and the stack's environment overlaid by the upgrade's, and is marked as an upgrade. A constructor error gives neither project nor variables. Otherwise the overlaid variables are returned. |
| StackProject.UpgradeVariables | executor/handlers/project.go:19-31 | Every upgrade variable reaches the upgraded context, and the stack's other variables keep their values. |

## Left out

- Blkio.GetThrottleDevice: requires every entry to contain `:`. The original indexes `split[1]` and panics on the first entry without one. The precondition is stronger than the original's behaviour in one case: a bad rate in an earlier entry returns before a colon-less later entry is reached.
- Blkio.ToBlkioOptions: requires every entry of all five lists to contain `:`, for the same reason.
- Transform.Transform: requires every entry of all five lists to contain `:`, for the same reason.
- Blkio.ToBlkioOptions: the last loop copies the records into a map of `interface{}` values (transform/transform.go:176-180). That copy is the identity on contents and is not modelled as a separate step.
- Transform.MapToMap: the `interface{}` values of the copy are kept as strings, since they are never anything else.
- Transform.Transform: the YAML wrapper types are taken as their contents. The environment, labels and sysctls are plain maps, the ulimits a list, and the volumes an optional list. The integer casts to `int64` are identities on values already in range.
- Transform.Volumes: `project.IsNamedVolume` and the resource lookup's `ResolvePath` are given as functions in the context. The library that implements them is not part of this model.
- Transform.Volumes: the Go loop copies each volume pointer and writes the rewritten source back into the service's own volume (transform/transform.go:98-101), so the caller's configuration changes, even when `Transform` then fails. The model treats volumes as values: `Transform` never changes its input, and only the returned volume strings are modelled.
- Transform.VolumeString: the compose library's volume formatting (`source:destination[:mode]`, without the source when it is empty) is written out here. The library itself is not part of this model.
- Logging: the log lines in `doUp` and the listener added to a built project have no effect on results and are left out.
- StackHandler.StackUp: the keepalive heartbeat appears only as start and stop events in the trace. Its timing and its own replies are left out.
- StackHandler.DoUp: the Go code passes the `stackUp` error to `IsErrClusterNotReady` and compares it with the service timeout error. The model classifies errors as `ClusterNotReady`, `Timeout` or `Failed(message)`, and the error text is the message.
- StackHandler.StackUp: the API client, the cluster lookup and the project construction the handler calls are remote or belong to other packages. Their outcomes are inputs (`Api`).
- StackProject.CreateVariableMap: has no error result, because the original always returns a nil error (its question-defaults step is commented out). The rancher-compose text it receives is unused, and the question defaults are not modelled.
- StackProject.CreateVariableMap: variable values are strings. The original builds a `map[string]interface{}` and copies the stack's and the upgrade's environment values into it unconverted, so values of other types are not modelled.
- StackProject.ConstructProject: the project constructor `rancher.NewProject` is given as a function from context to an optional error. The project's parsing of the compose files is not part of this model.
- StackProject.ConstructProject: the original hands `rancher.NewProject` a pointer to the context and then returns that same pointer. The given function cannot change the context, so any effect of the constructor on the context is not modelled; the returned context is the one built here. The same holds for StackProject.ConstructProjectUpgrade.
- The handler's `constructProject(stack, cluster, opts)` and the two functions in project.go have different signatures. The model does not connect the handler's construction step to `StackProject.ConstructProject`; the handler sees only its outcome.
- A nil map and an empty map are not told apart.
