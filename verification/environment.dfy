/** The two stateful worlds the operator talks to, the Kubernetes API server
    and STACKIT, and what each call of the operator does to them.

    Everything the operator cannot foresee is a script: before each call the
    environment makes the moves of the next slot (users edit or delete the
    object, STACKIT resources change, vanish or appear), and the slot's reply
    says how the call goes. A statement about all scripts is a statement about
    all interleavings. */
module Environment {
  import opened Common
  import opened StackitErrors
  import Servers
  import Volumes
  import Networks
  import Clusters

  datatype Kind = KServer | KVolume | KNetwork | KCluster

  datatype Spec =
    | ServerSpec(server: Servers.ServerSpec)
    | VolumeSpec(volume: Volumes.VolumeSpec)
    | NetworkSpec(network: Networks.NetworkSpec)
    | ClusterSpec(cluster: Clusters.ClusterSpec)

  datatype Resource =
    | Server(server: Servers.Server)
    | Volume(volume: Volumes.Volume)
    | Network(network: Networks.Network)
    | Cluster(cluster: Clusters.Cluster)

  datatype CreatePayload =
    | CreateServer(server: Servers.CreateServerPayload)
    | CreateVolume(volume: Volumes.CreateVolumePayload)
    | CreateNetwork(network: Networks.CreateNetworkPayload)
    | UpsertCluster(cluster: Clusters.ClusterPayload)

  /** A corrective call. */
  datatype Action =
    | OnServer(server: Servers.ServerAction)
    | OnVolume(volume: Volumes.VolumeAction)
    | OnNetwork(network: Networks.UpdateNetworkPayload)
    | OnCluster(cluster: Clusters.ClusterPayload)

  function KindOfSpec(spec: Spec): Kind {
    match spec
    case ServerSpec(_) => KServer
    case VolumeSpec(_) => KVolume
    case NetworkSpec(_) => KNetwork
    case ClusterSpec(_) => KCluster
  }

  function KindOf(res: Resource): Kind {
    match res
    case Server(_) => KServer
    case Volume(_) => KVolume
    case Network(_) => KNetwork
    case Cluster(_) => KCluster
  }

  /** spec.existingId or spec.existingClusterName; a Server has no such field. */
  function Existing(spec: Spec): Option<string> {
    match spec
    case ServerSpec(_) => None
    case VolumeSpec(v) => v.existingId
    case NetworkSpec(n) => n.existingId
    case ClusterSpec(c) => c.existingName
  }

  predicate Adopted(spec: Spec) {
    IsAdopted(Existing(spec))
  }

  // ---- the stored custom resource

  datatype Condition = Condition(ready: bool, reason: string, message: string, generation: nat)

  datatype NicStatus = NicStatus(networkId: string, ipv4: string, ipv6: string, mac: string)

  /** The kind-specific part of the status. */
  datatype Mirror =
    | ServerMirror(powerStatus: string, machineType: string, nics: seq<NicStatus>)
    | VolumeMirror(size: int, serverId: string)
    | NetworkMirror(prefixes: seq<string>, gateway: string)
    | ClusterMirror(
        kubernetesVersion: string, hibernated: bool, podRanges: seq<string>, egressRanges: seq<string>,
        errors: seq<string>)

  /** `id` is status.serverId, volumeId, networkId or clusterName; `condition`
      is the one Ready condition. */
  datatype Status = Status(id: string, state: string, generation: nat, mirror: Mirror, condition: Option<Condition>)

  datatype Object = Object(
    version: nat, generation: nat, deleting: bool, finalizer: bool, name: string, spec: Spec, status: Status)

  // ---- the world

  /** What the environment does on its own. */
  datatype Move =
    | EditSpec(spec: Spec)
    | EditMetadata
    | RequestDeletion
    | Change(id: string, res: Resource)
    | Vanish(id: string)
    | Appear(id: string, res: Resource)

  /** A read of a referenced Network or Volume object. */
  datatype RefRead = Missing | Unreadable(error: Error) | Read(id: string, state: string)

  /** How a call goes: refused with an error (possibly after taking effect), or
      accepted with the given ID and resource. */
  datatype Reply = Reply(
    error: Option<Error>, tookEffect: bool, newId: string, withId: bool, result: Resource, vanishes: bool, ref: RefRead)

  datatype Slot = Slot(moves: seq<Move>, reply: Reply)

  datatype Call = Create(payload: CreatePayload) | Correct(action: Action) | Delete

  /** A successful read of the Network or Volume object a Server refers to. */
  datatype RefSeen = NetworkSeen(name: string, id: string) | VolumeSeen(name: string, id: string, state: string)

  /** A mutating call as issued: its target, the ID stored in the API server at
      that moment, whether the target existed, and the versions stored and the
      references read up to then. */
  datatype CallRecord = CallRecord(
    call: Call, target: string, storedId: string, targetLive: bool, versions: seq<Object>, refs: set<RefSeen>)

  /** `history` holds every version ever stored, any of which a cached read may
      return. `live` are the STACKIT resources, `used` the IDs ever given out.
      The rest is bookkeeping no operation depends on: `mine` are the live
      resources made by a create of the operator, `inFlight` a created ID not
      yet stored, `lost` the created IDs the operator was not told or failed to
      store, `calls` the mutating calls, `seen` the successful reads from
      STACKIT and `refs` those of referenced objects. */
  datatype World = World(
    kind: Kind, obj: Option<Object>, history: seq<Object>,
    live: map<string, Resource>, used: set<string>,
    mine: set<string>, inFlight: Option<string>, lost: set<string>,
    calls: seq<CallRecord>, seen: set<(string, Resource)>, refs: set<RefSeen>,
    future: seq<Slot>)

  function StoredId(w: World): string {
    if w.obj.Some? then w.obj.value.status.id else ""
  }

  /** Stores a new version of the object. */
  function Store(w: World, o: Object): World {
    var o' := o.(version := |w.history|);
    w.(obj := Some(o'), history := w.history + [o'])
  }

  // ---- the environment

  /** Users do not turn an object into another kind or change what it adopts. */
  predicate MayEdit(o: Object, spec: Spec) {
    KindOfSpec(spec) == KindOfSpec(o.spec) && Existing(spec) == Existing(o.spec)
  }

  /** A new ID: never empty and, for the resources STACKIT numbers itself,
      never reused. Cluster names may be reused once free. */
  predicate IsFree(w: World, id: string) {
    id != "" && id !in w.live && (w.kind != KCluster ==> id !in w.used)
  }

  function Remove(w: World, id: string): World {
    w.(live := w.live - {id}, mine := w.mine - {id})
  }

  /** A move; one that does not apply changes nothing. */
  function MoveOnce(w: World, m: Move): World {
    match m
    case EditSpec(spec) =>
      if w.obj.Some? && MayEdit(w.obj.value, spec) then
        Store(w, w.obj.value.(spec := spec, generation := w.obj.value.generation + 1))
      else w
    case EditMetadata =>
      if w.obj.Some? then Store(w, w.obj.value) else w
    case RequestDeletion =>
      if w.obj.Some? && !w.obj.value.deleting then
        if w.obj.value.finalizer then
          Store(w, w.obj.value.(deleting := true, generation := w.obj.value.generation + 1))
        else w.(obj := None)
      else w
    case Change(id, res) =>
      if id in w.live && KindOf(res) == w.kind then w.(live := w.live[id := res]) else w
    case Vanish(id) =>
      Remove(w, id)
    case Appear(id, res) =>
      if IsFree(w, id) && KindOf(res) == w.kind then w.(live := w.live[id := res], used := w.used + {id}) else w
  }

  function Moves(w: World, ms: seq<Move>): World
    decreases |ms|
  {
    if ms == [] then w else Moves(MoveOnce(w, ms[0]), ms[1..])
  }

  /** Nothing moves and no call fails. */
  predicate Undisturbed(slots: seq<Slot>) {
    forall i | 0 <= i < |slots| :: slots[i].moves == [] && slots[i].reply.error.None?
  }

  /** When the script is over, nothing moves any more and every call fails. */
  const SILENCE := Reply(Some(Other("no route to host")), false, "", false,
                         Volume(Volumes.Volume(None, None, None, None, None, None, map[])), false, Missing)

  /** Time passes until the next call: the next slot's moves happen. */
  function Enter(w: World): World {
    if w.future == [] then w else Moves(w.(future := w.future[1..]), w.future[0].moves)
  }

  function NextReply(w: World): Reply {
    if w.future == [] then SILENCE else w.future[0].reply
  }

  // ---- calls to the API server

  /** Errors of the Kubernetes client never classify as STACKIT errors. */
  function ClientError(e: Error): Error {
    Other(e.text)
  }

  const GONE := Other("the object no longer exists")
  const OUTDATED := Other("the object has been modified")

  datatype Fresh = Current(obj: Object) | NoRead(error: Error)

  /** APIReader.Get: what is stored now. */
  function FreshRead(w: World): (World, Fresh) {
    var r, w1 := NextReply(w), Enter(w);
    if r.error.Some? then (w1, NoRead(ClientError(r.error.value)))
    else if w1.obj.None? then (w1, NoRead(GONE))
    else (w1, Current(w1.obj.value))
  }

  /** The write of o is stored: it needs the version it was read from, and may
      land although its sender is told that it failed. */
  predicate Lands(w: World, r: Reply, o: Object) {
    w.obj.Some? && w.obj.value.version == o.version && (r.error.Some? ==> r.tookEffect)
  }

  /** What the sender of a write is told. */
  function WriteFailure(w: World, r: Reply, o: Object): Option<Error> {
    if r.error.Some? then Some(ClientError(r.error.value))
    else if w.obj.None? then Some(GONE)
    else if w.obj.value.version != o.version then Some(OUTDATED)
    else None
  }

  /** Client.Update after a change of the finalizer list: needs the current
      version, and removes a deleted object that has no finalizer left. */
  function Update(w: World, o: Object): (World, Option<Error>) {
    var r, w1 := NextReply(w), Enter(w);
    var failure := WriteFailure(w1, r, o);
    if !Lands(w1, r, o) then (w1, failure)
    else if w1.obj.value.deleting && !o.finalizer then (w1.(obj := None), failure)
    else (Store(w1, w1.obj.value.(finalizer := o.finalizer)), failure)
  }

  /** A created ID whose status write did not land is lost, unless it is stored anyway. */
  function LoseInFlight(w: World): World {
    if w.inFlight.None? then w
    else w.(inFlight := None, lost := if w.inFlight.value == StoredId(w) then w.lost else w.lost + {w.inFlight.value})
  }

  /** Client.Status().Update: needs the current version, changes the status only. */
  function UpdateStatus(w: World, o: Object): (World, Option<Error>) {
    var r, w1 := NextReply(w), Enter(w);
    var failure := WriteFailure(w1, r, o);
    if !Lands(w1, r, o) then (LoseInFlight(w1), failure)
    else
      var w2 := Store(w1, w1.obj.value.(status := o.status));
      (w2.(inFlight := None, lost := w2.lost - {o.status.id}), failure)
  }

  // ---- calls to STACKIT

  const NO_SUCH_RESOURCE := OpenAPI(NOT_FOUND, "", "404 Not Found")
  const BAD_RESPONSE := Other("malformed response")

  datatype Got = Shown(res: Resource) | NotShown(error: Error)

  /** A read; STACKIT answers 404 exactly for what does not exist. */
  function Get(w: World, id: string): (World, Got) {
    var r, w1 := NextReply(w), Enter(w);
    if r.error.Some? && !IsNotFound(r.error.value) then (w1, NotShown(r.error.value))
    else if id in w1.live then (w1.(seen := w1.seen + {(id, w1.live[id])}), Shown(w1.live[id]))
    else (w1, NotShown(NO_SUCH_RESOURCE))
  }

  function Record(w: World, call: Call, target: string): World {
    w.(calls := w.calls + [CallRecord(call, target, StoredId(w), target in w.live, w.history, w.refs)])
  }

  function Born(w: World, id: string, res: Resource): World {
    w.(live := w.live[id := res], used := w.used + {id}, mine := w.mine + {id})
  }

  datatype Created = Accepted(id: string, res: Resource) | Refused(error: Error)

  /** CreateServer, CreateVolume, CreateNetwork: every accepted call makes a new
      resource. An empty ID in the answer stands for an answer without one. */
  function Post(w: World, payload: CreatePayload): (World, Created) {
    var r, w1 := NextReply(w), Record(Enter(w), Create(payload), NextReply(w).newId);
    if !IsFree(w1, r.newId) || KindOf(r.result) != w1.kind then
      (w1, Refused(if r.error.Some? then r.error.value else BAD_RESPONSE))
    else if r.error.Some? then
      if r.tookEffect then
        var w2 := Born(w1, r.newId, r.result);
        (w2.(lost := w2.lost + {r.newId}), Refused(r.error.value))
      else (w1, Refused(r.error.value))
    else
      var w2 := Born(w1, r.newId, r.result);
      if r.withId then (w2.(inFlight := Some(r.newId)), Accepted(r.newId, r.result))
      else (w2.(lost := w2.lost + {r.newId}), Accepted("", r.result))
  }

  /** The effect of an upsert: it replaces the cluster of that name or makes it.
      A made cluster whose name is not stored is in flight if its creator is
      about to store it, else lost. */
  function PutCluster(w: World, name: string, res: Resource, toBeStored: bool): World {
    if name in w.live then w.(live := w.live[name := res])
    else
      var w1 := Born(w, name, res);
      if StoredId(w) == name then w1
      else if toBeStored then w1.(inFlight := Some(name))
      else w1.(lost := w1.lost + {name})
  }

  /** CreateOrUpdateCluster, for creation or (`resubmit`) to correct drift. */
  function Upsert(w: World, name: string, payload: Clusters.ClusterPayload, resubmit: bool): (World, Created) {
    var r := NextReply(w);
    var w1 := Record(Enter(w), if resubmit then Correct(OnCluster(payload)) else Create(UpsertCluster(payload)), name);
    if name == "" || KindOf(r.result) != w1.kind then
      (w1, Refused(if r.error.Some? then r.error.value else BAD_RESPONSE))
    else if r.error.Some? then
      (if r.tookEffect then PutCluster(w1, name, r.result, false) else w1, Refused(r.error.value))
    else (PutCluster(w1, name, r.result, !resubmit), Accepted(name, r.result))
  }

  /** The state STACKIT leaves an existing resource in. */
  function Become(w: World, id: string, r: Reply): World {
    if id in w.live && KindOf(r.result) == w.kind then w.(live := w.live[id := r.result]) else w
  }

  /** Resize, start, stop or update of a resource; the upsert of a cluster. */
  function Act(w: World, id: string, action: Action): (World, Option<Error>) {
    if action.OnCluster? then
      var (w1, c) := Upsert(w, id, action.cluster, true);
      (w1, if c.Refused? then Some(c.error) else None)
    else
      var r, w1 := NextReply(w), Record(Enter(w), Correct(action), id);
      if r.error.Some? then (if r.tookEffect then Become(w1, id, r) else w1, r.error)
      else if id !in w1.live then (w1, Some(NO_SUCH_RESOURCE))
      else (Become(w1, id, r), None)
  }

  /** Deletion: the resource is gone at once or left in some state. */
  function Discard(w: World, id: string): (World, Option<Error>) {
    var r, w1 := NextReply(w), Record(Enter(w), Delete, id);
    var after := if r.vanishes then Remove(w1, id) else Become(w1, id, r);
    if r.error.Some? && !IsNotFound(r.error.value) then (if r.tookEffect then after else w1, r.error)
    else if id !in w1.live then (w1, Some(NO_SUCH_RESOURCE))
    else (after, None)
  }

  /** A cached read of a Network or Volume object a Server refers to. */
  function ReadRef(w: World, bootVolume: bool, name: string): (World, RefRead) {
    var r, w1 := NextReply(w), Enter(w);
    match r.ref
    case Missing => (w1, r.ref)
    case Unreadable(_) => (w1, r.ref)
    case Read(id, state) =>
      (w1.(refs := w1.refs + {if bootVolume then VolumeSeen(name, id, state) else NetworkSeen(name, id)}), r.ref)
  }
}
