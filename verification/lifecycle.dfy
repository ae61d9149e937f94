/** The four reconcilers as one lifecycle protocol: what a reconcile does to the
    world, as functions of the world and of the view it starts from. Where the
    four controllers differ, the kind decides. */
module Lifecycle {
  import opened Common
  import opened StackitErrors
  import opened Environment
  import Servers
  import Volumes
  import Networks
  import Clusters

  const POLL_INTERVAL := 10
  const SLOW_POLL_INTERVAL := 30
  const ERROR_INTERVAL := 60
  const RESYNC_PERIOD := 300

  datatype Result = Done | Requeue | After(seconds: nat) | Failed(error: Error)

  // ---- the kind-specific constants

  predicate HasPrefix(s: string, prefix: string) {
    prefix <= s
  }

  const SERVER_TRANSITIONAL := {
    "CREATING", "STARTING", "STOPPING", "RESIZING", "DELETING", "UPDATING", "REBOOT", "REBOOTING", "REBUILD",
    "REBUILDING", "RESCUE", "RESCUING", "RESTORING", "SNAPSHOTTING", "MIGRATING", "BACKING-UP", "UNRESCUING",
    "DEALLOCATING" }

  const VOLUME_TRANSITIONAL := {
    "CREATING", "ATTACHING", "DETACHING", "DOWNLOADING", "BACKING-UP", "RESIZING", "RESTORING-BACKUP", "RETYPING",
    "UPLOADING", "AWAITING-TRANSFER", "MAINTENANCE", "RESERVED" }

  const NETWORK_TRANSITIONAL := { "CREATING", "DELETING", "UPDATING" }

  const CLUSTER_TRANSITIONAL := {
    "STATE_CREATING", "STATE_DELETING", "STATE_RECONCILING", "STATE_HIBERNATING", "STATE_WAKINGUP" }

  predicate Transitional(k: Kind, state: string) {
    match k
    case KServer => state in SERVER_TRANSITIONAL
    case KVolume => state in VOLUME_TRANSITIONAL
    case KNetwork => state in NETWORK_TRANSITIONAL
    case KCluster => state in CLUSTER_TRANSITIONAL
  }

  predicate Broken(k: Kind, state: string) {
    match k
    case KServer => state == "ERROR"
    case KVolume => HasPrefix(state, "ERROR")
    case KNetwork => state == "FAILED"
    case KCluster => state == "STATE_UNHEALTHY"
  }

  function BrokenReason(k: Kind): string {
    if k == KCluster then "Unhealthy" else "Error"
  }

  /** The states that make a resource Ready, and the reason to show for them. */
  function ReadyReason(k: Kind, state: string): Option<string> {
    match k
    case KServer => if state == "ACTIVE" then Some("Active") else if state == "INACTIVE" then Some("Inactive") else None
    case KVolume =>
      if state == "AVAILABLE" then Some("Available") else if state == "ATTACHED" then Some("Attached") else None
    case KNetwork =>
      if state == "CREATED" then Some("Created") else if state == "UPDATED" then Some("Updated") else None
    case KCluster =>
      if state == "STATE_HEALTHY" then Some("Healthy")
      else if state == "STATE_HIBERNATED" then Some("Hibernated")
      else None
  }

  function DeletingState(k: Kind): string {
    if k == KCluster then "STATE_DELETING" else "DELETING"
  }

  function PollInterval(k: Kind): nat {
    if k == KServer || k == KCluster then SLOW_POLL_INTERVAL else POLL_INTERVAL
  }

  function Word(k: Kind): string {
    match k
    case KServer => "server"
    case KVolume => "volume"
    case KNetwork => "network"
    case KCluster => "cluster"
  }

  // ---- what the status mirrors

  function StateOf(res: Resource): string {
    match res
    case Server(s) => DerefString(s.state)
    case Volume(v) => DerefString(v.state)
    case Network(n) => n.state
    case Cluster(c) => if c.report.None? then "" else DerefString(c.report.value.aggregated)
  }

  function NicStatuses(nics: seq<Servers.Nic>): (out: seq<NicStatus>)
    ensures |out| == |nics|
  {
    seq(|nics|, i requires 0 <= i < |nics| =>
      NicStatus(nics[i].networkId, DerefString(nics[i].ipv4), DerefString(nics[i].ipv6), nics[i].mac))
  }

  function ErrorLines(errors: seq<Clusters.ClusterError>): (out: seq<string>)
    ensures |out| == |errors|
  {
    seq(|errors|, i requires 0 <= i < |errors| => DerefString(errors[i].code) + ": " + DerefString(errors[i].message))
  }

  /** Network and Cluster keep the old values of what the answer leaves out. */
  function MirrorOf(prior: Mirror, res: Resource): Mirror {
    match res
    case Server(s) => ServerMirror(DerefString(s.powerStatus), s.machineType, NicStatuses(s.nics))
    case Volume(v) => VolumeMirror(DerefInt(v.size), DerefString(v.serverId))
    case Network(n) =>
      if n.ipv4.Some? then NetworkMirror(n.ipv4.value.prefixes, DerefString(n.ipv4.value.gateway)) else prior
    case Cluster(c) =>
      if c.report.Some? then
        var r := c.report.value;
        ClusterMirror(c.kubernetesVersion, DerefBool(r.hibernated), r.podRanges, r.egressRanges, ErrorLines(r.errors))
      else if prior.ClusterMirror? then prior.(kubernetesVersion := c.kubernetesVersion)
      else ClusterMirror(c.kubernetesVersion, false, [], [], [])
  }

  /** applyServerStatus and its three counterparts. */
  function Observe(o: Object, res: Resource): Object {
    o.(status := o.status.(state := StateOf(res), generation := o.generation, mirror := MirrorOf(o.status.mirror, res)))
  }

  function WithId(o: Object, id: string): Object {
    o.(status := o.status.(id := id))
  }

  function SetReady(o: Object, ready: bool, reason: string, message: string): Object {
    o.(status := o.status.(condition := Some(Condition(ready, reason, message, o.generation))))
  }

  function StateMessage(k: Kind, state: string): string {
    Word(k) + " is " + state
  }

  // ---- drift

  function Drift(o: Object, res: Resource): Option<Action> {
    match o.spec
    case ServerSpec(spec) =>
      if !res.Server? then None else
      var d := Servers.Drift(spec, o.name, res.server);
      if d.Some? then Some(OnServer(d.value)) else None
    case VolumeSpec(spec) =>
      if !res.Volume? then None else
      var d := Volumes.Drift(spec, o.name, res.volume);
      if d.Some? then Some(OnVolume(d.value)) else None
    case NetworkSpec(spec) =>
      if !res.Network? then None else
      var d := Networks.Drift(spec, o.name, res.network);
      if d.Some? then Some(OnNetwork(d.value)) else None
    case ClusterSpec(spec) =>
      if !res.Cluster? then None else
      var d := Clusters.Drift(spec, res.cluster);
      if d.Some? then Some(OnCluster(d.value)) else None
  }

  // ---- writing back

  /** Writes the status unless it equals the snapshot taken before; with
      `elide` false it always writes. */
  function Sync(w: World, before: Status, o: Object, elide: bool): (World, Option<Error>) {
    if elide && before == o.status then (Enter(w), None) else UpdateStatus(w, o)
  }

  function Finish(written: (World, Option<Error>), result: Result): (World, Result) {
    (written.0, if written.1.Some? then Failed(written.1.value) else result)
  }

  function SyncThen(w: World, before: Status, o: Object, elide: bool, result: Result): (World, Result) {
    Finish(Sync(w, before, o, elide), result)
  }

  // ---- references of a Server

  datatype Resolution =
    | Invalid(error: Error)
    | NotReady
    | Resolved(imageId: string, networkId: string, bootVolumeId: string)

  /** One resolved reference: its ID, or not ready, or an error. */
  datatype Ref = RefError(error: Error) | RefId(id: string, ready: bool)

  const NO_IMAGE := Other("spec.imageId must be set unless spec.bootVolumeRef is set")
  const TWO_NETWORKS := Other("spec.networkId and spec.networkRef are mutually exclusive")
  const NO_NETWORK := Other("one of spec.networkId or spec.networkRef must be set")

  function ResolveImage(spec: Servers.ServerSpec): Ref {
    if spec.imageId != "" then RefId(spec.imageId, true)
    else if spec.bootVolumeRef.Some? then RefId("", true)
    else RefError(NO_IMAGE)
  }

  function ResolveNetwork(w: World, spec: Servers.ServerSpec): (World, Ref) {
    if spec.networkId != "" && spec.networkRef.Some? then (w, RefError(TWO_NETWORKS))
    else if spec.networkRef.Some? then
      var (w1, read) := ReadRef(w, false, spec.networkRef.value);
      (w1, match read
           case Missing => RefId("", false)
           case Unreadable(e) => RefError(ClientError(e))
           case Read(id, state) => RefId(id, id != ""))
    else if spec.networkId != "" then (w, RefId(spec.networkId, true))
    else (w, RefError(NO_NETWORK))
  }

  function ResolveBootVolume(w: World, spec: Servers.ServerSpec): (World, Ref) {
    if spec.bootVolumeRef.None? then (w, RefId("", true))
    else
      var (w1, read) := ReadRef(w, true, spec.bootVolumeRef.value);
      (w1, match read
           case Missing => RefId("", false)
           case Unreadable(e) => RefError(ClientError(e))
           case Read(id, state) => RefId(id, id != "" && state == "AVAILABLE"))
  }

  function Resolve(w: World, spec: Servers.ServerSpec): (World, Resolution) {
    var image := ResolveImage(spec);
    if image.RefError? then (w, Invalid(image.error)) else
    var (w1, network) := ResolveNetwork(w, spec);
    if network.RefError? then (w1, Invalid(network.error)) else
    var (w2, volume) := ResolveBootVolume(w1, spec);
    if volume.RefError? then (w2, Invalid(volume.error))
    else if !image.ready || !network.ready || !volume.ready then (w2, NotReady)
    else (w2, Resolved(image.id, network.id, volume.id))
  }

  // ---- create

  function NoId(k: Kind): Error {
    Other("STACKIT returned a " + Word(k) + " without an ID")
  }

  /** What an accepted create notes in the status. */
  function CreatedStatus(k: Kind, o: Object, id: string, res: Resource): Object {
    SetReady(Observe(WithId(o, id), res), false, "Creating", Word(k) + " creation triggered")
  }

  /** After an accepted create or upsert: store the ID. */
  function StoreCreated(w: World, before: Status, o: Object, id: string, res: Resource, elide: bool): (World, Result) {
    SyncThen(w, before, CreatedStatus(w.kind, o, id, res), elide, After(PollInterval(w.kind)))
  }

  /** After a refused create: a failure to write the status is only logged. */
  function ReportRefused(w: World, before: Status, o: Object, e: Error, elide: bool): (World, Result) {
    (Sync(w, before, SetReady(o, false, "CreateFailed", e.text), elide).0, Failed(e))
  }

  function CreateNew(w: World, before: Status, o: Object, payload: CreatePayload, elide: bool): (World, Result) {
    var (w1, created) := Post(w, payload);
    match created
    case Refused(e) => ReportRefused(w1, before, o, e, elide)
    case Accepted(id, res) =>
      // only Network takes an answer without an ID at face value
      if id == "" && w.kind != KNetwork then (w1, Failed(NoId(w.kind))) else StoreCreated(w1, before, o, id, res, elide)
  }

  function ServerPayload(o: Object, imageId: string, networkId: string, bootVolumeId: string): CreatePayload
    requires o.spec.ServerSpec?
  {
    var spec := o.spec.server;
    CreateServer(Servers.CreatePayload(NameOr(spec.name, o.name), spec, imageId, networkId, bootVolumeId))
  }

  function VolumePayload(o: Object): CreatePayload
    requires o.spec.VolumeSpec?
  {
    CreateVolume(Volumes.CreatePayload(NameOr(o.spec.volume.name, o.name), o.spec.volume))
  }

  function NetworkPayload(o: Object): CreatePayload
    requires o.spec.NetworkSpec?
  {
    CreateNetwork(Networks.CreatePayload(NameOr(o.spec.network.name, o.name), o.spec.network))
  }

  const WAITING_MESSAGE := "waiting for referenced Network/Volume to become ready"

  function CreateWithRefs(w: World, o: Object, elide: bool): (World, Result)
    requires o.spec.ServerSpec?
  {
    var (w1, resolution) := Resolve(w, o.spec.server);
    match resolution
    case Invalid(e) =>
      SyncThen(w1, o.status, SetReady(o, false, "InvalidReference", e.text), elide, Done)
    case NotReady =>
      SyncThen(w1, o.status,
               SetReady(o, false, "WaitingForReference", WAITING_MESSAGE),
               elide, After(SLOW_POLL_INTERVAL))
    case Resolved(image, network, volume) =>
      CreateNew(w1, o.status, o, ServerPayload(o, image, network, volume), elide)
  }

  /** Server, Volume and Network re-read the object before they create. Server
      takes its snapshot of the status after that, the other two before. */
  function CreateAfterReread(w: World, view: Object, elide: bool): (World, Result) {
    var (w1, reread) := FreshRead(w);
    match reread
    case NoRead(e) => (w1, Failed(e))
    case Current(o) =>
      if o.status.id != "" then (w1, Requeue)
      else
        match o.spec
        case ServerSpec(_) => CreateWithRefs(w1, o, elide)
        case VolumeSpec(_) => CreateNew(w1, view.status, o, VolumePayload(o), elide)
        case NetworkSpec(_) => CreateNew(w1, view.status, o, NetworkPayload(o), elide)
        case ClusterSpec(_) => (w1, Requeue)
  }

  /** Cluster does not re-read: its create is an upsert under a name. */
  function CreateByName(w: World, o: Object, spec: Clusters.ClusterSpec, elide: bool): (World, Result) {
    var name := NameOr(spec.name, o.name);
    var (w1, created) := Upsert(w, name, Clusters.Payload(spec), false);
    match created
    case Accepted(_, res) => StoreCreated(w1, o.status, o, name, res, elide)
    case Refused(e) =>
      if IsAlreadyExists(e) then
        var (w2, got) := Get(w1, name);
        match got
        case NotShown(e') => (w2, Failed(e'))
        case Shown(res) => StoreCreated(w2, o.status, o, name, res, elide)
      else ReportRefused(w1, o.status, o, e, elide)
  }

  function NotFoundMessage(k: Kind): string {
    (if k == KCluster then "existingClusterName" else "existingId") + " not found in STACKIT"
  }

  function Adopt(w: World, o: Object, id: string, elide: bool): (World, Result) {
    var (w1, got) := Get(w, id);
    match got
    case NotShown(e) =>
      if IsNotFound(e) then
        (Sync(w1, o.status, SetReady(o, false, "NotFound", NotFoundMessage(w.kind)), elide).0, After(ERROR_INTERVAL))
      else (w1, Failed(e))
    case Shown(res) => SyncThen(w1, o.status, Observe(WithId(o, id), res), elide, Requeue)
  }

  function ReconcileCreate(w: World, o: Object, elide: bool): (World, Result) {
    if Adopted(o.spec) then Adopt(w, o, Existing(o.spec).value, elide)
    else if o.spec.ClusterSpec? then CreateByName(w, o, o.spec.cluster, elide)
    else CreateAfterReread(w, o, elide)
  }

  // ---- an existing resource

  function RecreateMessage(k: Kind): string {
    Word(k) + " not found in STACKIT, will recreate"
  }

  /** A resource that is gone is forgotten. */
  function Forgotten(k: Kind, o: Object): Object {
    SetReady(WithId(o, ""), false, "NotFound", RecreateMessage(k))
  }

  /** What the status says about a resource that was read, and when to look again. */
  function Verdict(k: Kind, o: Object, res: Resource): (Object, Result) {
    var state := StateOf(res);
    if Transitional(k, state) then
      (SetReady(o, false, "Transitioning", StateMessage(k, state)), After(PollInterval(k)))
    else if Broken(k, state) then
      (SetReady(o, false, BrokenReason(k),
                if res.Server? then DerefString(res.server.errorMessage) else StateMessage(k, state)),
       After(ERROR_INTERVAL))
    else
      (SetReady(o, ReadyReason(k, state).Some?,
                if ReadyReason(k, state).Some? then ReadyReason(k, state).value else "Unknown", StateMessage(k, state)),
       After(RESYNC_PERIOD))
  }

  predicate Steady(k: Kind, state: string) {
    !Transitional(k, state) && !Broken(k, state)
  }

  function ReconcileExisting(w: World, o: Object, elide: bool): (World, Result) {
    var (w1, got) := Get(w, o.status.id);
    match got
    case NotShown(e) =>
      if !IsNotFound(e) then (w1, Failed(e))
      else if Adopted(o.spec) then
        SyncThen(w1, o.status, SetReady(o, false, "NotFound", NotFoundMessage(w.kind)), elide, After(ERROR_INTERVAL))
      else
        SyncThen(w1, o.status, Forgotten(w.kind, o), elide, Requeue)
    case Shown(res) =>
      var seen := Observe(o, res);
      if Steady(w.kind, StateOf(res)) && !Adopted(o.spec) && Drift(seen, res).Some? then
        Finish(Act(w1, o.status.id, Drift(seen, res).value), Requeue)
      else
        var (o', result) := Verdict(w.kind, seen, res);
        SyncThen(w1, o.status, o', elide, result)
  }

  // ---- deletion

  function RemoveFinalizer(w: World, o: Object): (World, Result) {
    Finish(Update(w, o.(finalizer := false)), Done)
  }

  function ReportDeleting(w: World, o: Object, seen: Object, elide: bool): (World, Result) {
    SyncThen(w, o.status, SetReady(seen, false, "Deleting", StateMessage(w.kind, seen.status.state)), elide,
             After(PollInterval(w.kind)))
  }

  function ReconcileDelete(w: World, o: Object, elide: bool): (World, Result) {
    if !o.finalizer then (w, Done)
    else if o.status.id == "" then RemoveFinalizer(w, o)
    else
      var (w1, got) := Get(w, o.status.id);
      match got
      case NotShown(e) => if IsNotFound(e) then RemoveFinalizer(w1, o) else (w1, Failed(e))
      case Shown(res) =>
        var seen := Observe(o, res);
        if StateOf(res) == DeletingState(w.kind) then ReportDeleting(w1, o, seen, elide)
        else
          var (w2, refused) := Discard(w1, o.status.id);
          // a conflict is a hard error for Server, the other kinds try again
          if refused.Some? && !IsNotFound(refused.value) && !(IsConflict(refused.value) && w.kind != KServer)
          then (w2, Failed(refused.value))
          else ReportDeleting(w2, o, seen, elide)
  }

  // ---- a whole reconcile

  function AddFinalizer(w: World, o: Object): (World, Result) {
    Finish(Update(w, o.(finalizer := true)), Requeue)
  }

  function Steps(w: World, o: Object, elide: bool): (World, Result) {
    if o.deleting then ReconcileDelete(w, o, elide)
    else if !Adopted(o.spec) && !o.finalizer then AddFinalizer(w, o)
    else if o.status.id == "" then ReconcileCreate(w, o, elide)
    else ReconcileExisting(w, o, elide)
  }

  /** A transient authentication error becomes a short delay. */
  function Demote(r: Result): Result {
    if r.Failed? && IsTransientAuthError(r.error) then After(POLL_INTERVAL) else r
  }

  function Reconcile(w: World, view: Object): (World, Result) {
    var (w1, r) := Steps(w, view, true);
    (w1, Demote(r))
  }
}
