/** The reconcilers step by step, as the controllers have them: the custom
    resource is updated in place, calls go out one after another, and each
    method does exactly what its specification in Lifecycle says. */
module Controllers {
  import opened Common
  import opened StackitErrors
  import opened Environment
  import L = Lifecycle
  import Servers
  import Volumes
  import Networks
  import Clusters

  /** The decoded object a reconcile works on. */
  class CustomResource {
    var version: nat
    var generation: nat
    var deleting: bool
    var finalizer: bool
    var name: string
    var spec: Spec
    var status: Status

    constructor (o: Object)
      ensures Value() == o
    {
      version, generation, deleting, finalizer := o.version, o.generation, o.deleting, o.finalizer;
      name, spec, status := o.name, o.spec, o.status;
    }

    function Value(): Object
      reads this
    {
      Object(version, generation, deleting, finalizer, name, spec, status)
    }

    /** Decoding a read into the same object overwrites all of it. */
    method Overwrite(o: Object)
      modifies this
      ensures Value() == o
    {
      version, generation, deleting, finalizer := o.version, o.generation, o.deleting, o.finalizer;
      name, spec, status := o.name, o.spec, o.status;
    }

    method SetId(id: string)
      modifies this`status
      ensures Value() == L.WithId(old(Value()), id)
    {
      status := status.(id := id);
    }

    method SetReadyCondition(ready: bool, reason: string, message: string)
      modifies this`status
      ensures Value() == L.SetReady(old(Value()), ready, reason, message)
    {
      status := status.(condition := Some(Condition(ready, reason, message, generation)));
    }

    method ApplyStatus(current: Resource)
      modifies this`status
      ensures Value() == L.Observe(old(Value()), current)
    {
      status := status.(state := L.StateOf(current));
      match current {
        case Server(s) =>
          var nics := MirrorNics(s.nics);
          status := status.(mirror := ServerMirror(DerefString(s.powerStatus), s.machineType, nics));
        case Volume(v) =>
          status := status.(mirror := VolumeMirror(DerefInt(v.size), DerefString(v.serverId)));
        case Network(n) =>
          if n.ipv4.Some? {
            status := status.(mirror := NetworkMirror(n.ipv4.value.prefixes, DerefString(n.ipv4.value.gateway)));
          }
        case Cluster(c) =>
          var mirror := if status.mirror.ClusterMirror? then status.mirror else ClusterMirror("", false, [], [], []);
          mirror := mirror.(kubernetesVersion := c.kubernetesVersion);
          if c.report.Some? {
            var report := c.report.value;
            var errors := MirrorErrors(report.errors);
            mirror := mirror.(hibernated := DerefBool(report.hibernated), podRanges := report.podRanges,
                              egressRanges := report.egressRanges, errors := errors);
          }
          status := status.(mirror := mirror);
      }
      status := status.(generation := generation);
    }
  }

  method MirrorNics(nics: seq<Servers.Nic>) returns (out: seq<NicStatus>)
    ensures out == L.NicStatuses(nics)
  {
    out := [];
    for i := 0 to |nics|
      invariant |out| == i
      invariant forall k | 0 <= k < i :: out[k] == L.NicStatuses(nics)[k]
    {
      var nic := nics[i];
      out := out + [NicStatus(nic.networkId, DerefString(nic.ipv4), DerefString(nic.ipv6), nic.mac)];
    }
  }

  method MirrorErrors(errors: seq<Clusters.ClusterError>) returns (out: seq<string>)
    ensures out == L.ErrorLines(errors)
  {
    out := [];
    for i := 0 to |errors|
      invariant |out| == i
      invariant forall k | 0 <= k < i :: out[k] == L.ErrorLines(errors)[k]
    {
      out := out + [DerefString(errors[i].code) + ": " + DerefString(errors[i].message)];
    }
  }

  /** The API server and STACKIT as the operator's clients reach them. */
  class Clients {
    var world: World

    method Get(id: string) returns (got: Got)
      modifies this
      ensures (world, got) == Environment.Get(old(world), id)
    {
      var (w, g) := Environment.Get(world, id);
      world, got := w, g;
    }

    method Post(payload: CreatePayload) returns (created: Created)
      modifies this
      ensures (world, created) == Environment.Post(old(world), payload)
    {
      var (w, c) := Environment.Post(world, payload);
      world, created := w, c;
    }

    method Upsert(name: string, payload: Clusters.ClusterPayload) returns (created: Created)
      modifies this
      ensures (world, created) == Environment.Upsert(old(world), name, payload, false)
    {
      var (w, c) := Environment.Upsert(world, name, payload, false);
      world, created := w, c;
    }

    method Act(id: string, action: Action) returns (error: Option<Error>)
      modifies this
      ensures (world, error) == Environment.Act(old(world), id, action)
    {
      var (w, e) := Environment.Act(world, id, action);
      world, error := w, e;
    }

    method Delete(id: string) returns (error: Option<Error>)
      modifies this
      ensures (world, error) == Environment.Discard(old(world), id)
    {
      var (w, e) := Environment.Discard(world, id);
      world, error := w, e;
    }

    method ReadRef(bootVolume: bool, name: string) returns (read: RefRead)
      modifies this
      ensures (world, read) == Environment.ReadRef(old(world), bootVolume, name)
    {
      var (w, r) := Environment.ReadRef(world, bootVolume, name);
      world, read := w, r;
    }

    method ReadObject() returns (reread: Fresh)
      modifies this
      ensures (world, reread) == Environment.FreshRead(old(world))
    {
      var (w, r) := Environment.FreshRead(world);
      world, reread := w, r;
    }

    method Update(o: Object) returns (error: Option<Error>)
      modifies this
      ensures (world, error) == Environment.Update(old(world), o)
    {
      var (w, e) := Environment.Update(world, o);
      world, error := w, e;
    }

    method UpdateStatus(o: Object) returns (error: Option<Error>)
      modifies this
      ensures (world, error) == Environment.UpdateStatus(old(world), o)
    {
      var (w, e) := Environment.UpdateStatus(world, o);
      world, error := w, e;
    }

    /** No call is made, but the environment moves as it would during one. */
    method Pass()
      modifies this
      ensures world == Enter(old(world))
    {
      world := Enter(world);
    }
  }

  class Reconciler {
    const clients: Clients

    constructor (clients: Clients)
      ensures this.clients == clients
    {
      this.clients := clients;
    }

    // ---- shared helpers

    /** Writes the status back unless nothing changed since the snapshot. */
    method WriteStatusIfChanged(cr: CustomResource, before: Status) returns (error: Option<Error>)
      modifies clients
      ensures (clients.world, error) == L.Sync(old(clients.world), before, cr.Value(), true)
    {
      error := None;
      if before != cr.status {
        error := clients.UpdateStatus(cr.Value());
      } else {
        clients.Pass();
      }
    }

    method EnsureFinalizer(cr: CustomResource) returns (added: bool, error: Option<Error>)
      modifies clients, cr`finalizer
      ensures old(cr.finalizer) ==>
                !added && error.None? && clients.world == old(clients.world) && cr.Value() == old(cr.Value())
      ensures !old(cr.finalizer) ==>
                (clients.world, error) == Environment.Update(old(clients.world), old(cr.Value()).(finalizer := true))
      ensures !old(cr.finalizer) ==> (added <==> error.None?)
    {
      if cr.finalizer {
        return false, None;
      }
      cr.finalizer := true;
      error := clients.Update(cr.Value());
      added := error.None?;
    }

    method RemoveFinalizerAndUpdate(cr: CustomResource) returns (result: L.Result)
      modifies clients, cr`finalizer
      ensures !old(cr.finalizer) ==> result == L.Done && clients.world == old(clients.world)
      ensures old(cr.finalizer) ==> (clients.world, result) == L.RemoveFinalizer(old(clients.world), old(cr.Value()))
    {
      if !cr.finalizer {
        return L.Done;
      }
      cr.finalizer := false;
      var error := clients.Update(cr.Value());
      if error.Some? {
        return L.Failed(error.value);
      }
      result := L.Done;
    }

    /** Re-reads the object in place and reports whether it has an ID by now. */
    method IdAlreadyPresent(cr: CustomResource) returns (present: bool, error: Option<Error>)
      modifies clients, cr
      ensures clients.world == FreshRead(old(clients.world)).0
      ensures match FreshRead(old(clients.world)).1
              case NoRead(e) => error == Some(e) && cr.Value() == old(cr.Value())
              case Current(o) => error.None? && cr.Value() == o && (present <==> o.status.id != "")
    {
      var reread := clients.ReadObject();
      match reread {
        case NoRead(e) =>
          return false, Some(e);
        case Current(o) =>
          cr.Overwrite(o);
          return cr.status.id != "", None;
      }
    }

    // ---- references

    method ResolveNetworkRef(spec: Servers.ServerSpec) returns (ref: L.Ref)
      modifies clients
      ensures (clients.world, ref) == L.ResolveNetwork(old(clients.world), spec)
    {
      if spec.networkId != "" && spec.networkRef.Some? {
        return L.RefError(L.TWO_NETWORKS);
      }
      if spec.networkRef.Some? {
        var read := clients.ReadRef(false, spec.networkRef.value);
        match read {
          case Missing => return L.RefId("", false);
          case Unreadable(e) => return L.RefError(ClientError(e));
          case Read(id, _) => return L.RefId(id, id != "");
        }
      }
      if spec.networkId != "" {
        return L.RefId(spec.networkId, true);
      }
      ref := L.RefError(L.NO_NETWORK);
    }

    method ResolveBootVolumeRef(spec: Servers.ServerSpec) returns (ref: L.Ref)
      modifies clients
      ensures (clients.world, ref) == L.ResolveBootVolume(old(clients.world), spec)
    {
      if spec.bootVolumeRef.None? {
        return L.RefId("", true);
      }
      var read := clients.ReadRef(true, spec.bootVolumeRef.value);
      match read {
        case Missing => return L.RefId("", false);
        case Unreadable(e) => return L.RefError(ClientError(e));
        case Read(id, state) => return L.RefId(id, id != "" && state == "AVAILABLE");
      }
    }

    method InvalidReference(cr: CustomResource, before: Status, refError: Error) returns (result: L.Result)
      modifies clients, cr`status
      ensures (clients.world, result) ==
                L.SyncThen(old(clients.world), before,
                           L.SetReady(old(cr.Value()), false, "InvalidReference", refError.text), true, L.Done)
    {
      cr.SetReadyCondition(false, "InvalidReference", refError.text);
      var error := WriteStatusIfChanged(cr, before);
      if error.Some? {
        return L.Failed(error.value);
      }
      result := L.Done;
    }

    // ---- create

    /** The second half of a create: the answer is recorded in the status. */
    method RecordCreated(cr: CustomResource, before: Status, id: string, created: Resource) returns (result: L.Result)
      modifies clients, cr`status
      ensures (clients.world, result) == L.StoreCreated(old(clients.world), before, old(cr.Value()), id, created, true)
    {
      var kind := clients.world.kind;
      cr.SetId(id);
      cr.ApplyStatus(created);
      cr.SetReadyCondition(false, "Creating", L.Word(kind) + " creation triggered");
      var error := WriteStatusIfChanged(cr, before);
      if error.Some? {
        return L.Failed(error.value);
      }
      result := L.After(L.PollInterval(kind));
    }

    method RecordRefused(cr: CustomResource, before: Status, refused: Error) returns (result: L.Result)
      modifies clients, cr`status
      ensures (clients.world, result) == L.ReportRefused(old(clients.world), before, old(cr.Value()), refused, true)
    {
      cr.SetReadyCondition(false, "CreateFailed", refused.text);
      var logged := WriteStatusIfChanged(cr, before);
      result := L.Failed(refused);
    }

    method CreateWithPayload(cr: CustomResource, before: Status, payload: CreatePayload) returns (result: L.Result)
      modifies clients, cr`status
      ensures (clients.world, result) == L.CreateNew(old(clients.world), before, old(cr.Value()), payload, true)
    {
      var kind := clients.world.kind;
      var created := clients.Post(payload);
      match created {
        case Refused(e) =>
          result := RecordRefused(cr, before, e);
        case Accepted(id, res) =>
          if id == "" && kind != KNetwork {
            return L.Failed(L.NoId(kind));
          }
          result := RecordCreated(cr, before, id, res);
      }
    }

    method CreateServer(cr: CustomResource) returns (result: L.Result)
      requires cr.spec.ServerSpec?
      modifies clients, cr`status
      ensures (clients.world, result) == L.CreateWithRefs(old(clients.world), old(cr.Value()), true)
    {
      var before := cr.status;
      var spec := cr.spec.server;
      var image := L.ResolveImage(spec);
      if image.RefError? {
        result := InvalidReference(cr, before, image.error);
        return;
      }
      var network := ResolveNetworkRef(spec);
      if network.RefError? {
        result := InvalidReference(cr, before, network.error);
        return;
      }
      var bootVolume := ResolveBootVolumeRef(spec);
      if bootVolume.RefError? {
        result := InvalidReference(cr, before, bootVolume.error);
        return;
      }
      if !image.ready || !network.ready || !bootVolume.ready {
        cr.SetReadyCondition(false, "WaitingForReference", L.WAITING_MESSAGE);
        var error := WriteStatusIfChanged(cr, before);
        if error.Some? {
          return L.Failed(error.value);
        }
        return L.After(L.SLOW_POLL_INTERVAL);
      }
      var payload := Servers.BuildCreatePayload(NameOr(spec.name, cr.name), spec, image.id, network.id, bootVolume.id);
      result := CreateWithPayload(cr, before, CreatePayload.CreateServer(payload));
    }

    /** Server, Volume and Network: re-read, then create. */
    method CreateAfterReread(cr: CustomResource) returns (result: L.Result)
      modifies clients, cr
      ensures (clients.world, result) == L.CreateAfterReread(old(clients.world), old(cr.Value()), true)
    {
      var before := cr.status;
      var already, error := IdAlreadyPresent(cr);
      if error.Some? {
        return L.Failed(error.value);
      }
      if already {
        return L.Requeue;
      }
      match cr.spec {
        case ServerSpec(_) =>
          result := CreateServer(cr);
        case VolumeSpec(spec) =>
          var payload := Volumes.BuildVolumeCreatePayload(NameOr(spec.name, cr.name), spec);
          result := CreateWithPayload(cr, before, CreateVolume(payload));
        case NetworkSpec(spec) =>
          var payload := Networks.BuildNetworkCreatePayload(NameOr(spec.name, cr.name), spec);
          result := CreateWithPayload(cr, before, CreateNetwork(payload));
        case ClusterSpec(_) =>
          result := L.Requeue;
      }
    }

    /** Cluster: an upsert under the cluster's name. */
    method CreateByName(cr: CustomResource) returns (result: L.Result)
      requires cr.spec.ClusterSpec?
      modifies clients, cr`status
      ensures (clients.world, result) == L.CreateByName(old(clients.world), old(cr.Value()), old(cr.spec.cluster), true)
    {
      var before := cr.status;
      var spec := cr.spec.cluster;
      var name := NameOr(spec.name, cr.name);
      var payload := Clusters.BuildClusterPayload(spec);
      var created := clients.Upsert(name, payload);
      if created.Refused? {
        if !IsAlreadyExists(created.error) {
          result := RecordRefused(cr, before, created.error);
          return;
        }
        var current := clients.Get(name);
        if current.NotShown? {
          return L.Failed(current.error);
        }
        created := Accepted(name, current.res);
      }
      result := RecordCreated(cr, before, name, created.res);
    }

    method Adopt(cr: CustomResource, id: string) returns (result: L.Result)
      modifies clients, cr`status
      ensures (clients.world, result) == L.Adopt(old(clients.world), old(cr.Value()), id, true)
    {
      var before, kind := cr.status, clients.world.kind;
      var current := clients.Get(id);
      if current.NotShown? {
        if !IsNotFound(current.error) {
          return L.Failed(current.error);
        }
        cr.SetReadyCondition(false, "NotFound", L.NotFoundMessage(kind));
        var logged := WriteStatusIfChanged(cr, before);
        return L.After(L.ERROR_INTERVAL);
      }
      cr.SetId(id);
      cr.ApplyStatus(current.res);
      var error := WriteStatusIfChanged(cr, before);
      if error.Some? {
        return L.Failed(error.value);
      }
      result := L.Requeue;
    }

    method ReconcileCreate(cr: CustomResource, adopted: bool) returns (result: L.Result)
      requires adopted == Adopted(cr.spec)
      modifies clients, cr
      ensures (clients.world, result) == L.ReconcileCreate(old(clients.world), old(cr.Value()), true)
    {
      if adopted {
        result := Adopt(cr, Existing(cr.spec).value);
      } else if cr.spec.ClusterSpec? {
        result := CreateByName(cr);
      } else {
        result := CreateAfterReread(cr);
      }
    }

    // ---- an existing resource

    /** The drift comparison of the four controllers. */
    method ChooseCorrection(cr: CustomResource, current: Resource) returns (action: Option<Action>)
      requires cr.name != ""
      ensures action == L.Drift(cr.Value(), current)
    {
      action := None;
      match cr.spec {
        case ServerSpec(spec) =>
          if current.Server? {
            var a := Servers.ChooseAction(spec, cr.name, current.server);
            if a.Some? {
              action := Some(OnServer(a.value));
            }
          }
        case VolumeSpec(spec) =>
          if current.Volume? {
            var a := Volumes.ChooseAction(spec, cr.name, current.volume);
            if a.Some? {
              action := Some(OnVolume(a.value));
            }
          }
        case NetworkSpec(spec) =>
          if current.Network? {
            var a := Networks.ChooseUpdate(spec, cr.name, current.network);
            if a.Some? {
              action := Some(OnNetwork(a.value));
            }
          }
        case ClusterSpec(spec) =>
          if current.Cluster? {
            var a := Clusters.ChooseUpsert(spec, current.cluster);
            if a.Some? {
              action := Some(OnCluster(a.value));
            }
          }
      }
    }

    /** At most one corrective call; reports whether one was made. */
    method ReconcileDrift(cr: CustomResource, current: Resource) returns (triggered: bool, error: Option<Error>)
      requires cr.name != ""
      modifies clients
      ensures var d := L.Drift(cr.Value(), current);
              if d.None? then !triggered && error.None? && clients.world == old(clients.world)
              else
                && (clients.world, error) == Environment.Act(old(clients.world), cr.status.id, d.value)
                && (triggered <==> error.None?)
    {
      var action := ChooseCorrection(cr, current);
      if action.None? {
        return false, None;
      }
      error := clients.Act(cr.status.id, action.value);
      triggered := error.None?;
    }

    /** Notes the verdict and writes it back if it is news. */
    method Conclude(cr: CustomResource, before: Status, ready: bool, reason: string, message: string, next: L.Result)
      returns (result: L.Result)
      modifies clients, cr`status
      ensures (clients.world, result) ==
                L.SyncThen(old(clients.world), before, L.SetReady(old(cr.Value()), ready, reason, message), true, next)
    {
      cr.SetReadyCondition(ready, reason, message);
      var error := WriteStatusIfChanged(cr, before);
      if error.Some? {
        return L.Failed(error.value);
      }
      result := next;
    }

    method ReconcileExisting(cr: CustomResource, adopted: bool) returns (result: L.Result)
      requires adopted == Adopted(cr.spec) && cr.name != ""
      modifies clients, cr`status
      ensures (clients.world, result) == L.ReconcileExisting(old(clients.world), old(cr.Value()), true)
    {
      var before, kind := cr.status, clients.world.kind;
      var got := clients.Get(cr.status.id);
      if got.NotShown? {
        if !IsNotFound(got.error) {
          return L.Failed(got.error);
        }
        if adopted {
          result := Conclude(cr, before, false, "NotFound", L.NotFoundMessage(kind), L.After(L.ERROR_INTERVAL));
          return;
        }
        cr.SetId("");
        result := Conclude(cr, before, false, "NotFound", L.RecreateMessage(kind), L.Requeue);
        return;
      }
      var current := got.res;
      cr.ApplyStatus(current);
      var state := cr.status.state;
      if L.Transitional(kind, state) {
        var next := L.After(L.PollInterval(kind));
        result := Conclude(cr, before, false, "Transitioning", L.StateMessage(kind, state), next);
        return;
      } else if L.Broken(kind, state) {
        var message := L.StateMessage(kind, state);
        if current.Server? {
          message := DerefString(current.server.errorMessage);
        }
        result := Conclude(cr, before, false, L.BrokenReason(kind), message, L.After(L.ERROR_INTERVAL));
        return;
      }
      if !adopted {
        var triggered, error := ReconcileDrift(cr, current);
        if error.Some? {
          return L.Failed(error.value);
        } else if triggered {
          return L.Requeue;
        }
      }
      var reason, ready := "Unknown", false;
      if L.ReadyReason(kind, state).Some? {
        reason, ready := L.ReadyReason(kind, state).value, true;
      }
      result := Conclude(cr, before, ready, reason, L.StateMessage(kind, state), L.After(L.RESYNC_PERIOD));
    }

    // ---- deletion

    method ReconcileDelete(cr: CustomResource) returns (result: L.Result)
      modifies clients, cr`status, cr`finalizer
      ensures (clients.world, result) == L.ReconcileDelete(old(clients.world), old(cr.Value()), true)
    {
      var kind := clients.world.kind;
      if !cr.finalizer {
        return L.Done;
      }
      if cr.status.id == "" {
        result := RemoveFinalizerAndUpdate(cr);
        return;
      }
      var id := cr.status.id;
      var got := clients.Get(id);
      if got.NotShown? {
        if !IsNotFound(got.error) {
          return L.Failed(got.error);
        }
        result := RemoveFinalizerAndUpdate(cr);
        return;
      }
      var before := cr.status;
      cr.ApplyStatus(got.res);
      if L.StateOf(got.res) != L.DeletingState(kind) {
        var refused := clients.Delete(id);
        if refused.Some? {
          if IsConflict(refused.value) && kind != KServer {
            result := Conclude(cr, before, false, "Deleting", L.StateMessage(clients.world.kind, cr.status.state),
                             L.After(L.PollInterval(clients.world.kind)));
            return;
          }
          if !IsNotFound(refused.value) {
            return L.Failed(refused.value);
          }
        }
      }
      result := Conclude(cr, before, false, "Deleting", L.StateMessage(clients.world.kind, cr.status.state),
                             L.After(L.PollInterval(clients.world.kind)));
    }

    // ---- a whole reconcile

    method Dispatch(cr: CustomResource) returns (result: L.Result)
      requires cr.name != ""
      modifies clients, cr
      ensures (clients.world, result) == L.Steps(old(clients.world), old(cr.Value()), true)
    {
      if cr.deleting {
        result := ReconcileDelete(cr);
        return;
      }
      var adopted := Adopted(cr.spec);
      if !adopted {
        var added, error := EnsureFinalizer(cr);
        if error.Some? {
          return L.Failed(error.value);
        }
        if added {
          return L.Requeue;
        }
      }
      if cr.status.id == "" {
        result := ReconcileCreate(cr, adopted);
      } else {
        result := ReconcileExisting(cr, adopted);
      }
    }

    /** A reconcile request for an object the cache shows as `view`. */
    method Reconcile(view: Object) returns (result: L.Result)
      requires view.name != ""
      modifies clients
      ensures (clients.world, result) == L.Reconcile(old(clients.world), view)
    {
      var cr := new CustomResource(view);
      result := Dispatch(cr);
      if result.Failed? && IsTransientAuthError(result.error) {
        result := L.After(L.POLL_INTERVAL);
      }
    }
  }
}
