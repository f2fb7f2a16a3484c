/**
 * The stack-event handler: on a create or update event it resolves the stack,
 * then its cluster, builds the project, announces "Creating stack", runs Create
 * and, when asked, Up, and finally classifies the outcome into the reply it
 * publishes. Every remote call is an outcome given in advance (an `Api`), and
 * what the handler does is recorded as a trace of calls and replies.
 */
module StackHandler {
  import opened Wrappers

  /** The errors the handler tells apart: cluster not ready, timeout, and any other failure with its text. */
  datatype Error = ClusterNotReady | Timeout | Failed(message: string)

  /** A lookup by id: it fails, finds nothing, or finds a value. */
  datatype Lookup<T> = LookupFailed(error: Error) | NotFound | Found(value: T)

  datatype Stack = Stack(id: string, clusterId: string)

  datatype Cluster = Cluster(id: string)

  /** Project construction: it fails, yields no project and no error, or yields a project. */
  datatype ProjectBuild = BuildFailed(error: Error) | NoProject | Built

  /** What each remote call returns when made: `None` is success for Create, Up and the empty reply. */
  datatype Api = Api(
    stackById: Lookup<Stack>,
    clusterById: Lookup<Cluster>,
    constructProject: ProjectBuild,
    create: Option<Error>,
    up: Option<Error>,
    emptyReply: Option<Error>)

  datatype Event = Event(id: string, resourceId: string)

  /** One observable step of the handler. */
  datatype Call =
    | GetStack(stackId: string)
    | GetCluster(clusterId: string)
    | ConstructProject(stackId: string, clusterId: string)
    | TransitioningReply(eventId: string, message: string, isError: bool)
    | KeepaliveStarted
    | KeepaliveStopped
    | Create
    | Up
    | EmptyReply(eventId: string)

  const CreatingStack := "Creating stack"
  const WaitingForCluster := "Waiting for cluster to be ready"
  const StackNotFound := "Failed to find stack"
  const ClusterNotFound := "Failed to find cluster"

  /**
   * What `stackUp` does for given remote outcomes: its error and its trace. A
   * failed or empty stack lookup stops it before anything else; likewise the
   * cluster lookup before the project is built. A construction error is
   * returned as is; no project and no error returns no error. Only with a
   * project is "Creating stack" announced, followed by the heartbeat, Create
   * and, when Create succeeded and `forceUp` is set, Up, whose result is then
   * the result; the heartbeat stops last on every path where it started.
   */
  function StackUpOutcome(ev: Event, api: Api, forceUp: bool): (Option<Error>, seq<Call>) {
    match api.stackById
    case LookupFailed(e) => (Some(e), [GetStack(ev.resourceId)])
    case NotFound => (Some(Failed(StackNotFound)), [GetStack(ev.resourceId)])
    case Found(stack) =>
      var resolving := [GetStack(ev.resourceId), GetCluster(stack.clusterId)];
      match api.clusterById
      case LookupFailed(e) => (Some(e), resolving)
      case NotFound => (Some(Failed(ClusterNotFound)), resolving)
      case Found(cluster) =>
        var building := resolving + [ConstructProject(stack.id, cluster.id)];
        match api.constructProject
        case BuildFailed(e) => (Some(e), building)
        case NoProject => (None, building)
        case Built =>
          var creating := building + [TransitioningReply(ev.id, CreatingStack, false), KeepaliveStarted, Create];
          if api.create.Some? then (api.create, creating + [KeepaliveStopped])
          else if forceUp then (api.up, creating + [Up, KeepaliveStopped])
          else (None, creating + [KeepaliveStopped])
  }

  /**
   * The reply `doUp` adds to what `stackUp` did, and what it returns: success
   * sends the empty reply and returns its result; cluster-not-ready announces
   * the wait and returns no error; a timeout publishes nothing and returns the
   * error; any other failure publishes an error reply with its text and
   * returns the error.
   */
  function Reply(ev: Event, api: Api, stackErr: Option<Error>, stackTrace: seq<Call>): (Option<Error>, seq<Call>) {
    match stackErr
    case None => (api.emptyReply, stackTrace + [EmptyReply(ev.id)])
    case Some(ClusterNotReady) => (None, stackTrace + [TransitioningReply(ev.id, WaitingForCluster, false)])
    case Some(Timeout) => (stackErr, stackTrace)
    case Some(Failed(m)) => (stackErr, stackTrace + [TransitioningReply(ev.id, m, true)])
  }

  /** What `doUp` does for given remote outcomes. */
  function DoUpOutcome(ev: Event, api: Api, forceUp: bool): (Option<Error>, seq<Call>) {
    var (stackErr, stackTrace) := StackUpOutcome(ev, api, forceUp);
    Reply(ev, api, stackErr, stackTrace)
  }

  /** `stackUp`. */
  method StackUp(ev: Event, api: Api, forceUp: bool) returns (err: Option<Error>, trace: seq<Call>)
    ensures (err, trace) == StackUpOutcome(ev, api, forceUp)
  {
    trace := [GetStack(ev.resourceId)];
    if api.stackById.LookupFailed? {
      return Some(api.stackById.error), trace;
    }
    if api.stackById.NotFound? {
      return Some(Failed(StackNotFound)), trace;
    }
    var stack := api.stackById.value;

    trace := trace + [GetCluster(stack.clusterId)];
    assert trace == [GetStack(ev.resourceId), GetCluster(stack.clusterId)];
    if api.clusterById.LookupFailed? {
      return Some(api.clusterById.error), trace;
    }
    if api.clusterById.NotFound? {
      return Some(Failed(ClusterNotFound)), trace;
    }
    var cluster := api.clusterById.value;

    trace := trace + [ConstructProject(stack.id, cluster.id)];
    ghost var building := trace;
    if api.constructProject.BuildFailed? {
      return Some(api.constructProject.error), trace;
    }
    if api.constructProject.NoProject? {
      return None, trace;
    }

    trace := trace + [TransitioningReply(ev.id, CreatingStack, false)];
    trace := trace + [KeepaliveStarted];
    trace := trace + [Create];
    ghost var creating := building + [TransitioningReply(ev.id, CreatingStack, false), KeepaliveStarted, Create];
    assert trace == creating;
    if api.create.Some? {
      err := api.create;
    } else if forceUp {
      trace := trace + [Up];
      err := api.up;
    } else {
      err := None;
    }
    trace := trace + [KeepaliveStopped];
    assert trace == creating + (if api.create.None? && forceUp then [Up, KeepaliveStopped] else [KeepaliveStopped]);
  }

  /** `doUp`: run `stackUp`, then reply according to its outcome. */
  method DoUp(ev: Event, api: Api, forceUp: bool) returns (err: Option<Error>, trace: seq<Call>)
    ensures (err, trace) == DoUpOutcome(ev, api, forceUp)
  {
    var e, t := StackUp(ev, api, forceUp);
    if e.Some? {
      if e.value.ClusterNotReady? {
        return None, t + [TransitioningReply(ev.id, WaitingForCluster, false)];
      }
      if e.value != Timeout {
        t := t + [TransitioningReply(ev.id, e.value.message, true)];
      }
      return e, t;
    }
    return api.emptyReply, t + [EmptyReply(ev.id)];
  }

  /** `CreateStack`: `doUp` with Up forced. */
  method CreateStack(ev: Event, api: Api) returns (err: Option<Error>, trace: seq<Call>)
    ensures (err, trace) == DoUpOutcome(ev, api, true)
  {
    err, trace := DoUp(ev, api, true);
  }

  /** `UpdateStack`: `doUp` with Up forced, exactly as for create. */
  method UpdateStack(ev: Event, api: Api) returns (err: Option<Error>, trace: seq<Call>)
    ensures (err, trace) == DoUpOutcome(ev, api, true)
  {
    err, trace := DoUp(ev, api, true);
  }

  // ---- consequences ----

  /** Nothing is looked up, built, announced or created after a failed stack lookup. */
  lemma NoStackStopsEarly(ev: Event, api: Api, forceUp: bool)
    requires !api.stackById.Found?
    ensures var (err, trace) := StackUpOutcome(ev, api, forceUp);
      err.Some? && trace == [GetStack(ev.resourceId)] &&
      (api.stackById.LookupFailed? ==> err == Some(api.stackById.error)) &&
      (api.stackById.NotFound? ==> err == Some(Failed(StackNotFound)))
  {
  }

  /** With a stack but no cluster, only the two lookups happen and an error is returned; "Failed to find cluster" when there was no lookup error. */
  lemma NoClusterStopsEarly(ev: Event, api: Api, forceUp: bool)
    requires api.stackById.Found? && !api.clusterById.Found?
    ensures var (err, trace) := StackUpOutcome(ev, api, forceUp);
      err.Some? && trace == [GetStack(ev.resourceId), GetCluster(api.stackById.value.clusterId)] &&
      (api.clusterById.LookupFailed? ==> err == Some(api.clusterById.error)) &&
      (api.clusterById.NotFound? ==> err == Some(Failed(ClusterNotFound)))
  {
  }

  /** Without a project, the construction error is returned as is, or no error when there is neither project nor error; nothing follows the attempt. */
  lemma UnbuiltOutcome(ev: Event, api: Api, forceUp: bool)
    requires api.stackById.Found? && api.clusterById.Found? && !api.constructProject.Built?
    ensures var (err, trace) := StackUpOutcome(ev, api, forceUp);
      trace == [GetStack(ev.resourceId), GetCluster(api.stackById.value.clusterId),
                ConstructProject(api.stackById.value.id, api.clusterById.value.id)] &&
      (api.constructProject.BuildFailed? ==> err == Some(api.constructProject.error)) &&
      (api.constructProject.NoProject? ==> err.None?)
  {
  }

  /** With a project built, the trace is the resolution, the announcement, the heartbeat's start, Create, and then Up when it runs and the heartbeat's stop. */
  lemma BuiltTrace(ev: Event, api: Api, forceUp: bool)
    requires api.stackById.Found? && api.clusterById.Found? && api.constructProject.Built?
    ensures StackUpOutcome(ev, api, forceUp).1 ==
      [GetStack(ev.resourceId), GetCluster(api.stackById.value.clusterId),
       ConstructProject(api.stackById.value.id, api.clusterById.value.id),
       TransitioningReply(ev.id, CreatingStack, false), KeepaliveStarted, Create] +
      (if api.create.None? && forceUp then [Up, KeepaliveStopped] else [KeepaliveStopped])
  {
  }

  /** Without a project, the trace holds lookups and the construction attempt only. */
  lemma UnbuiltTrace(ev: Event, api: Api, forceUp: bool)
    requires !(api.stackById.Found? && api.clusterById.Found? && api.constructProject.Built?)
    ensures forall c | c in StackUpOutcome(ev, api, forceUp).1 :: c.GetStack? || c.GetCluster? || c.ConstructProject?
  {
  }

  /** "Creating stack" is announced at most once, and Create is called at most once. */
  lemma CreatingAnnouncedOnce(ev: Event, api: Api, forceUp: bool)
    ensures var trace := StackUpOutcome(ev, api, forceUp).1;
      multiset(trace)[TransitioningReply(ev.id, CreatingStack, false)] <= 1 && multiset(trace)[Create] <= 1
  {
    if api.stackById.Found? && api.clusterById.Found? && api.constructProject.Built? {
      BuiltTrace(ev, api, forceUp);
      var resolution := [GetStack(ev.resourceId), GetCluster(api.stackById.value.clusterId),
                         ConstructProject(api.stackById.value.id, api.clusterById.value.id)];
      CountsInBuilt(StackUpOutcome(ev, api, forceUp).1, resolution, ev.id, api.create.None? && forceUp);
    } else {
      UnbuiltTrace(ev, api, forceUp);
      CountsInUnbuilt(StackUpOutcome(ev, api, forceUp).1, ev.id);
    }
  }

  lemma CountsInBuilt(trace: seq<Call>, resolution: seq<Call>, eventId: string, up: bool)
    requires forall c | c in resolution :: c.GetStack? || c.GetCluster? || c.ConstructProject?
    requires trace == resolution + [TransitioningReply(eventId, CreatingStack, false), KeepaliveStarted, Create] +
      (if up then [Up, KeepaliveStopped] else [KeepaliveStopped])
    ensures multiset(trace)[TransitioningReply(eventId, CreatingStack, false)] == 1 && multiset(trace)[Create] == 1
  {
    assert TransitioningReply(eventId, CreatingStack, false) !in resolution && Create !in resolution;
    assert multiset(resolution)[TransitioningReply(eventId, CreatingStack, false)] == 0 && multiset(resolution)[Create] == 0;
  }

  lemma CountsInUnbuilt(trace: seq<Call>, eventId: string)
    requires forall c | c in trace :: c.GetStack? || c.GetCluster? || c.ConstructProject?
    ensures multiset(trace)[TransitioningReply(eventId, CreatingStack, false)] == 0 && multiset(trace)[Create] == 0
  {
    assert TransitioningReply(eventId, CreatingStack, false) !in trace && Create !in trace;
    assert multiset(trace)[TransitioningReply(eventId, CreatingStack, false)] == 0 && multiset(trace)[Create] == 0;
  }

  /** "Creating stack" is announced exactly when Create is called, and before it. */
  lemma CreatingAnnouncedBeforeCreate(ev: Event, api: Api, forceUp: bool)
    ensures var trace := StackUpOutcome(ev, api, forceUp).1;
      (TransitioningReply(ev.id, CreatingStack, false) in trace <==> Create in trace) &&
      forall i, j | 0 <= i < |trace| && 0 <= j < |trace| &&
        trace[i] == TransitioningReply(ev.id, CreatingStack, false) && trace[j] == Create :: i < j
  {
    var trace := StackUpOutcome(ev, api, forceUp).1;
    var reply := TransitioningReply(ev.id, CreatingStack, false);
    if api.stackById.Found? && api.clusterById.Found? && api.constructProject.Built? {
      BuiltTrace(ev, api, forceUp);
      assert |trace| >= 7 && trace[3] == reply && trace[5] == Create;
      assert forall k | 0 <= k < |trace| && k != 3 :: trace[k] != reply;
      assert forall k | 0 <= k < |trace| && k != 5 :: trace[k] != Create;
    } else {
      UnbuiltTrace(ev, api, forceUp);
    }
  }

  /** Up is called exactly when Create was called and succeeded and Up is forced; it is then the result. */
  lemma UpOnlyAfterCreate(ev: Event, api: Api, forceUp: bool)
    ensures var (err, trace) := StackUpOutcome(ev, api, forceUp);
      (Up in trace <==> Create in trace && api.create.None? && forceUp) &&
      (Up in trace ==> err == api.up) &&
      (Create in trace && api.create.Some? ==> err == api.create)
  {
  }

  /** Once the heartbeat has started it is stopped, as the very last step. */
  lemma HeartbeatStops(ev: Event, api: Api, forceUp: bool)
    ensures var trace := StackUpOutcome(ev, api, forceUp).1;
      (KeepaliveStarted in trace <==> KeepaliveStopped in trace) &&
      (KeepaliveStarted in trace ==> trace[|trace| - 1] == KeepaliveStopped)
  {
  }

  /** A cluster that is not ready yet is no error: only the wait is announced, and no error reply is sent. */
  lemma ClusterNotReadyIsSoft(ev: Event, api: Api, forceUp: bool)
    requires StackUpOutcome(ev, api, forceUp).0 == Some(ClusterNotReady)
    ensures var (err, trace) := DoUpOutcome(ev, api, forceUp);
      err.None? && trace == StackUpOutcome(ev, api, forceUp).1 + [TransitioningReply(ev.id, WaitingForCluster, false)] &&
      forall i | 0 <= i < |trace| :: !(trace[i].TransitioningReply? && trace[i].isError)
  {
  }

  /** A timeout is returned without any reply. */
  lemma TimeoutIsSilent(ev: Event, api: Api, forceUp: bool)
    requires StackUpOutcome(ev, api, forceUp).0 == Some(Timeout)
    ensures DoUpOutcome(ev, api, forceUp) == (Some(Timeout), StackUpOutcome(ev, api, forceUp).1)
    ensures forall c | c in DoUpOutcome(ev, api, forceUp).1 :: !(c.TransitioningReply? && c.isError) && !c.EmptyReply?
  {
  }

  /** Every other failure is returned and published as an error reply carrying its text, as the last step. */
  lemma FailureIsReported(ev: Event, api: Api, forceUp: bool, message: string)
    requires StackUpOutcome(ev, api, forceUp).0 == Some(Failed(message))
    ensures var (err, trace) := DoUpOutcome(ev, api, forceUp);
      err == Some(Failed(message)) && trace[|trace| - 1] == TransitioningReply(ev.id, message, true)
  {
  }

  /** A run without error ends with exactly one empty reply, and returns that reply's result. */
  lemma SuccessSendsEmptyReply(ev: Event, api: Api, forceUp: bool)
    requires StackUpOutcome(ev, api, forceUp).0.None?
    ensures var (err, trace) := DoUpOutcome(ev, api, forceUp);
      err == api.emptyReply && trace[|trace| - 1] == EmptyReply(ev.id) && multiset(trace)[EmptyReply(ev.id)] == 1
  {
  }
}
