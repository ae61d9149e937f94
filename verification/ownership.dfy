/** Servers, Volumes and Networks the operator owns: no resource it made is ever
    forgotten, none outlives its object, and no call goes to a wrong target,
    however stale the views and whatever users and STACKIT do meanwhile. */
module Ownership {
  import opened Common
  import opened StackitErrors
  import opened Environment
  import opened Lifecycle
  import opened Consistency
  import Servers

  /** A recorded ID belongs to a live resource only while it is the stored one,
      and then the finalizer guards it. */
  predicate RecordedOrDead(w: World) {
    forall k | 0 <= k < |w.history| && w.history[k].status.id != "" ::
      && w.history[k].status.id in w.used
      && (w.history[k].status.id in w.live ==> StoredId(w) == w.history[k].status.id && w.obj.value.finalizer)
  }

  /** Every live resource of the operator is the stored one, about to be
      stored, or accounted as lost. */
  predicate Accounted(w: World) {
    forall id | id in w.mine :: id in w.lost || w.inFlight == Some(id) || id == StoredId(w)
  }

  /** Lost IDs and IDs in flight were never recorded. */
  predicate LostUnrecorded(w: World) {
    && w.lost <= w.used
    && (forall k | 0 <= k < |w.history| :: w.history[k].status.id !in w.lost)
    && (w.inFlight.Some? ==>
          && w.inFlight.value != "" && w.inFlight.value in w.used && w.inFlight.value !in w.lost
          && forall k | 0 <= k < |w.history| :: w.history[k].status.id != w.inFlight.value)
  }

  /** The network and boot volume IDs a spec asks for, given what was read from
      references: the network from exactly one of the two sources, and the volume,
      if one is referred to, AVAILABLE when it was read. */
  predicate ResolvedFrom(spec: Servers.ServerSpec, network: string, volume: string, refs: set<RefSeen>) {
    && network != ""
    && (if spec.networkRef.Some? then spec.networkId == "" && NetworkSeen(spec.networkRef.value, network) in refs
        else network == spec.networkId)
    && (if spec.bootVolumeRef.Some? then
          volume != "" && VolumeSeen(spec.bootVolumeRef.value, volume, "AVAILABLE") in refs
        else volume == "" && spec.imageId != "")
  }

  predicate AsksFor(o: Object, p: Servers.CreateServerPayload, volume: string, refs: set<RefSeen>) {
    && o.spec.ServerSpec?
    && var spec := o.spec.server;
       && p == Servers.CreatePayload(NameOr(spec.name, o.name), spec, spec.imageId, p.networkId, volume)
       && ResolvedFrom(spec, p.networkId, volume, refs)
  }

  /** Some stored version asks for just this server. */
  ghost predicate Requested(p: Servers.CreateServerPayload, versions: seq<Object>, refs: set<RefSeen>) {
    exists k: nat, volume: string :: k < |versions| && AsksFor(versions[k], p, volume, refs)
  }

  ghost predicate Sourced(w: World, payload: CreatePayload) {
    payload.CreateServer? ==> Requested(payload.server, w.history, w.refs)
  }

  /** What is asked for has a network and a boot source: the branch that would
      boot from an empty image ID is never taken. */
  lemma RequestedIsWellFormed(p: Servers.CreateServerPayload, versions: seq<Object>, refs: set<RefSeen>)
    requires Requested(p, versions, refs)
    ensures Servers.WellFormedCreate(p)
  {
  }

  lemma SourcedStays(v: World, w: World, payload: CreatePayload)
    requires Grows(v, w) && Sourced(v, payload)
    ensures Sourced(w, payload)
  {
    if payload.CreateServer? {
      var k: nat, volume: string :| k < |v.history| && AsksFor(v.history[k], payload.server, volume, v.refs);
      assert AsksFor(w.history[k], payload.server, volume, w.refs);
    }
  }

  /** An update, resize, start, stop or delete hits the stored resource or none;
      a server is created as a stored version asks for it, with a network and a
      boot source. */
  ghost predicate CallSafe(c: CallRecord) {
    match c.call
    case Create(payload) =>
      payload.CreateServer? ==>
        Servers.WellFormedCreate(payload.server) && Requested(payload.server, c.versions, c.refs)
    case _ => c.targetLive ==> c.target == c.storedId
  }

  ghost predicate CallsSafe(w: World) {
    forall i | 0 <= i < |w.calls| :: CallSafe(w.calls[i])
  }

  ghost predicate Inv(w: World) {
    && Consistent(w) && w.kind != KCluster && !Adopted(w.history[0].spec)
    && RecordedOrDead(w) && Accounted(w) && LostUnrecorded(w) && CallsSafe(w)
  }

  /** Between reconciles nothing is in flight. */
  ghost predicate AtRest(w: World) {
    Inv(w) && w.inFlight.None?
  }

  // ---- single calls

  lemma EnterKeeps(w: World)
    requires Inv(w)
    ensures Inv(Enter(w)) && Drifts(w, Enter(w))
  {
    EnterDrifts(w);
    DriftKeeps(w, Enter(w));
  }

  /** Nothing the environment does can break the invariant. */
  lemma DriftKeeps(w: World, w1: World)
    requires Inv(w) && Consistent(w1) && Drifts(w, w1)
    ensures Inv(w1)
  {
    assert w1.history[0] == w.history[0];
    forall k | 0 <= k < |w1.history| && w1.history[k].status.id != ""
      ensures w1.history[k].status.id in w1.used
      ensures w1.history[k].status.id in w1.live ==> StoredId(w1) == w1.history[k].status.id && w1.obj.value.finalizer
    {
      var j := StatusWasStored(w, w1, k);
    }
    forall k | 0 <= k < |w1.history|
      ensures w1.history[k].status.id !in w1.lost
      ensures w1.inFlight.Some? ==> w1.history[k].status.id != w1.inFlight.value
    {
      var j := StatusWasStored(w, w1, k);
    }
  }

  /** Users do not write the status, so every status in the history was
      already there. */
  lemma StatusWasStored(w: World, w1: World, k: nat) returns (j: nat)
    requires Consistent(w) && Consistent(w1) && Drifts(w, w1) && k < |w1.history|
    ensures j < |w.history| && w.history[j].status == w1.history[k].status
  {
    j := if k < |w.history| then k else |w.history| - 1;
  }

  /** A version of the object the operator holds: it differs from a stored one
      at most in the status and the finalizer. */
  predicate Derived(w: World, view: Object, o: Object) {
    InHistory(w, view) && o.version == view.version
  }

  lemma ViewStays(w: World, w1: World, view: Object)
    requires Drifts(w, w1) && InHistory(w, view)
    ensures InHistory(w1, view)
  {
  }

  /** A status may be written if it keeps the ID, clears an ID that is dead, or
      sets an ID that was just created. */
  predicate MayWrite(w: World, view: Object, o: Object) {
    || (o.status.id == view.status.id && w.inFlight.None?)
    || (o.status.id == "" && view.status.id !in w.live && w.inFlight.None?)
    || (view.status.id == "" && w.inFlight == Some(o.status.id))
  }

  lemma LoseInFlightKeeps(w: World)
    requires Inv(w)
    ensures AtRest(LoseInFlight(w)) && LoseInFlight(w).history == w.history && LoseInFlight(w).calls == w.calls
  {
  }

  lemma StoreStatusKeeps(w: World, view: Object, o: Object)
    requires Inv(w) && Derived(w, view, o) && view.finalizer && MayWrite(w, view, o) && w.obj == Some(view)
    ensures var w1 := Store(w, view.(status := o.status));
            AtRest(w1.(inFlight := None, lost := w1.lost - {o.status.id}))
  {
    StoreConsistent(w, view.(status := o.status));
    assert view == w.history[|w.history| - 1];
    var w1 := Store(w, view.(status := o.status));
    var w2 := w1.(inFlight := None, lost := w1.lost - {o.status.id});
    assert w2.history[0] == w.history[0];
    assert w2.lost == w.lost;
    forall k | 0 <= k < |w2.history| && w2.history[k].status.id != ""
      ensures w2.history[k].status.id in w2.used
      ensures w2.history[k].status.id in w2.live ==> StoredId(w2) == w2.history[k].status.id && w2.obj.value.finalizer
    {
      if k < |w.history| {
        assert w2.history[k] == w.history[k];
      }
    }
  }

  lemma UpdateStatusKeeps(w: World, view: Object, o: Object)
    requires Inv(w) && Derived(w, view, o) && view.finalizer && MayWrite(w, view, o)
    requires view.status.id != "" ==> view.status.id in w.used
    ensures AtRest(UpdateStatus(w, o).0) && UpdateStatus(w, o).0.calls == w.calls
  {
    EnterKeeps(w);
    var w1 := Enter(w);
    if !Lands(w1, NextReply(w), o) {
      LoseInFlightKeeps(w1);
    } else {
      ViewStays(w, w1, view);
      WriteNeedsCurrentView(w1, NextReply(w), view, o);
      StoreStatusKeeps(w1, view, o);
    }
  }

  lemma SyncKeeps(w: World, view: Object, before: Status, o: Object, elide: bool)
    requires Inv(w) && Derived(w, view, o) && view.finalizer && MayWrite(w, view, o)
    requires view.status.id != "" ==> view.status.id in w.used
    requires w.inFlight.Some? ==> before.id != o.status.id
    ensures AtRest(Sync(w, before, o, elide).0) && Sync(w, before, o, elide).0.calls == w.calls
  {
    UpdateStatusKeeps(w, view, o);
    EnterKeeps(w);
  }

  lemma AddFinalizerKeeps(w: World, view: Object)
    requires AtRest(w) && InHistory(w, view) && !view.deleting
    ensures AtRest(AddFinalizer(w, view).0)
  {
    EnterKeeps(w);
    var w1 := Enter(w);
    if Lands(w1, NextReply(w), view.(finalizer := true)) {
      ViewStays(w, w1, view);
      WriteNeedsCurrentView(w1, NextReply(w), view, view.(finalizer := true));
      var o := view.(finalizer := true);
      assert view == w1.history[|w1.history| - 1];
      StoreConsistent(w1, o);
      var w2 := Store(w1, o);
      assert w2.history[0] == w1.history[0];
      forall k | 0 <= k < |w2.history| && w2.history[k].status.id != ""
        ensures w2.history[k].status.id in w2.used
        ensures w2.history[k].status.id in w2.live ==> StoredId(w2) == w2.history[k].status.id && w2.obj.value.finalizer
      {
        var j := if k < |w1.history| then k else |w1.history| - 1;
        assert w2.history[k].status == w1.history[j].status;
      }
    }
  }

  lemma RemoveFinalizerKeeps(w: World, view: Object)
    requires AtRest(w) && InHistory(w, view) && view.deleting
    requires view.status.id != "" ==> view.status.id in w.used && view.status.id !in w.live
    ensures AtRest(RemoveFinalizer(w, view).0)
  {
    EnterKeeps(w);
    var w1 := Enter(w);
    if Lands(w1, NextReply(w), view.(finalizer := false)) {
      ViewStays(w, w1, view);
      WriteNeedsCurrentView(w1, NextReply(w), view, view.(finalizer := false));
    }
  }

  /** Noting what was read. */
  lemma NotesKeep(w: World, w1: World)
    requires Inv(w) && w1 == w.(seen := w1.seen, refs := w1.refs)
    ensures Inv(w1)
  {
  }

  lemma GetKeeps(w: World, id: string)
    requires Inv(w)
    ensures var (w1, got) := Get(w, id);
            && Inv(w1) && Grows(w, w1) && w1.inFlight == w.inFlight && w1.lost == w.lost
            && (got.Shown? ==> KindOf(got.res) == w.kind)
            && (got.NotShown? && IsNotFound(got.error) ==> id !in w1.live)
  {
    hide Enter, RecordedOrDead, LostUnrecorded, Accounted, CallsSafe;
    EnterKeeps(w);
    NotesKeep(Enter(w), Get(w, id).0);
  }

  /** A recorded live ID is the stored one, so a call on it is safe. */
  lemma RecordKeeps(w: World, view: Object, call: Call)
    requires Inv(w) && InHistory(w, view) && view.status.id != "" && !call.Create?
    ensures Inv(Record(w, call, view.status.id))
  {
  }

  lemma BecomeKeeps(w: World, id: string, r: Reply)
    requires Inv(w)
    ensures Inv(Become(w, id, r)) && Grows(w, Become(w, id, r)) && Become(w, id, r).inFlight == w.inFlight
  {
  }

  lemma RemoveKeeps(w: World, id: string)
    requires Inv(w)
    ensures Inv(Remove(w, id)) && Grows(w, Remove(w, id))
  {
  }

  lemma ActKeeps(w: World, view: Object, action: Action)
    requires AtRest(w) && InHistory(w, view) && view.status.id != "" && !action.OnCluster?
    ensures AtRest(Act(w, view.status.id, action).0) && Act(w, view.status.id, action).0.lost == w.lost
  {
    EnterKeeps(w);
    RecordKeeps(Enter(w), view, Correct(action));
    BecomeKeeps(Record(Enter(w), Correct(action), view.status.id), view.status.id, NextReply(w));
  }

  lemma DiscardKeeps(w: World, view: Object)
    requires AtRest(w) && InHistory(w, view) && view.status.id != ""
    ensures var w1 := Discard(w, view.status.id).0; AtRest(w1) && Grows(w, w1) && w1.lost == w.lost
  {
    hide Enter, RecordedOrDead, LostUnrecorded, Accounted, CallsSafe, HistoryConsistent;
    EnterKeeps(w);
    RecordKeeps(Enter(w), view, Delete);
    var w1 := Record(Enter(w), Delete, view.status.id);
    BecomeKeeps(w1, view.status.id, NextReply(w));
    RemoveKeeps(w1, view.status.id);
  }

  // ---- create

  lemma BornKeeps(w: World, id: string, res: Resource, told: bool)
    requires AtRest(w) && IsFree(w, id) && KindOf(res) == w.kind
    ensures var b := Born(w, id, res);
            var w1 := if told then b.(inFlight := Some(id)) else b.(lost := b.lost + {id});
            Inv(w1) && Grows(w, w1)
  {
  }

  /** The ID is new in w and the one create call from v to w was aimed at it. */
  predicate MadeBy(v: World, w: World, id: string) {
    && id !in v.used
    && |w.calls| == |v.calls| + 1
    && w.calls[|v.calls|].call.Create? && w.calls[|v.calls|].target == id
  }

  lemma CreateIsRecorded(w: World, payload: CreatePayload, id: string)
    requires AtRest(w) && Sourced(w, payload)
    ensures AtRest(Record(w, Create(payload), id))
  {
    if payload.CreateServer? {
      RequestedIsWellFormed(payload.server, w.history, w.refs);
    }
    hide Servers.WellFormedCreate, Requested;
    assert CallSafe(CallRecord(Create(payload), id, StoredId(w), id in w.live, w.history, w.refs));
  }

  lemma PostKeeps(w: World, payload: CreatePayload)
    requires AtRest(w)
    requires Sourced(w, payload)
    ensures var (w1, c) := Post(w, payload);
            && Inv(w1) && Grows(w, w1)
            && (c.Accepted? && c.id != "" ==>
                  w1.inFlight == Some(c.id) && c.id == NextReply(w).newId && w1.lost == w.lost)
            && (c.Accepted? && c.id == "" ==> w1.inFlight.None?)
            && (c.Refused? ==> w1.inFlight.None?)
            && (w1.lost == w.lost || w1.lost == w.lost + {NextReply(w).newId})
            && (c.Accepted? || w1.lost != w.lost ==> MadeBy(w, w1, NextReply(w).newId))
  {
    hide Enter, Sourced, RecordedOrDead, LostUnrecorded, Accounted, CallsSafe, HistoryConsistent;
    EnterKeeps(w);
    SourcedStays(w, Enter(w), payload);
    var r := NextReply(w);
    CreateIsRecorded(Enter(w), payload, r.newId);
    var w1 := Record(Enter(w), Create(payload), r.newId);
    if IsFree(w1, r.newId) && KindOf(r.result) == w1.kind {
      BornKeeps(w1, r.newId, r.result, r.error.None? && r.withId);
    }
  }

  lemma CreateNewKeeps(w: World, before: Status, view: Object, payload: CreatePayload)
    requires AtRest(w) && InHistory(w, view) && view.finalizer && view.status.id == "" && before.id == ""
    requires Sourced(w, payload)
    ensures AtRest(CreateNew(w, before, view, payload, true).0)
  {
    hide Post, Sync;
    PostKeeps(w, payload);
    var (w1, created) := Post(w, payload);
    match created
    case Refused(e) =>
      SyncKeeps(w1, view, before, SetReady(view, false, "CreateFailed", e.text), true);
    case Accepted(id, res) =>
      var o := CreatedStatus(w1.kind, view, id, res);
      SyncKeeps(w1, view, before, o, true);
  }

  lemma ReadRefKeeps(w: World, bootVolume: bool, name: string)
    requires AtRest(w)
    ensures var (w1, read) := ReadRef(w, bootVolume, name);
            && AtRest(w1) && Grows(w, w1) && w1.lost == w.lost && w1.calls == w.calls
            && (read.Read? && !bootVolume ==> NetworkSeen(name, read.id) in w1.refs)
            && (read.Read? && bootVolume ==> VolumeSeen(name, read.id, read.state) in w1.refs)
  {
    hide Enter, Inv;
    EnterKeeps(w);
    NotesKeep(Enter(w), ReadRef(w, bootVolume, name).0);
  }

  /** The reply that shows the boot volume object. */
  function VolumeReply(w: World, spec: Servers.ServerSpec): RefRead {
    NextReply(if spec.networkRef.Some? then ReadRef(w, false, spec.networkRef.value).0 else w).ref
  }

  /** References resolve to what the spec names or to what the reads of this very
      reconcile show: the network from exactly one source, and a boot volume only
      if it is shown as AVAILABLE. */
  lemma ResolveKeeps(w: World, spec: Servers.ServerSpec)
    requires AtRest(w)
    ensures var (w1, r) := Resolve(w, spec);
            && AtRest(w1) && Grows(w, w1) && w1.lost == w.lost && w1.calls == w.calls
            && (r.Resolved? ==>
                  && ResolvedFrom(spec, r.networkId, r.bootVolumeId, w1.refs) && r.imageId == spec.imageId
                  && (spec.networkRef.Some? ==> NextReply(w).ref.Read? && NextReply(w).ref.id == r.networkId)
                  && (spec.bootVolumeRef.Some? ==> VolumeReply(w, spec) == Read(r.bootVolumeId, "AVAILABLE")))
  {
    hide Inv;
    var w1 := ResolveNetwork(w, spec).0;
    if spec.networkRef.Some? {
      ReadRefKeeps(w, false, spec.networkRef.value);
    }
    if spec.bootVolumeRef.Some? {
      ReadRefKeeps(w1, true, spec.bootVolumeRef.value);
    }
  }

  /** The payload of a create is what the re-read version asks for. */
  lemma ResolvedIsSourced(w: World, o: Object, network: string, volume: string)
    requires InHistory(w, o) && o.spec.ServerSpec? && ResolvedFrom(o.spec.server, network, volume, w.refs)
    ensures Sourced(w, ServerPayload(o, o.spec.server.imageId, network, volume))
  {
    var payload := ServerPayload(o, o.spec.server.imageId, network, volume);
    assert AsksFor(w.history[o.version], payload.server, volume, w.refs);
  }

  lemma CreateWithRefsKeeps(w: World, view: Object)
    requires AtRest(w) && InHistory(w, view) && view.finalizer && view.status.id == "" && view.spec.ServerSpec?
    ensures AtRest(CreateWithRefs(w, view, true).0)
  {
    var spec := view.spec.server;
    ResolveKeeps(w, spec);
    var (w1, r) := Resolve(w, spec);
    match r
    case Invalid(e) =>
      SyncKeeps(w1, view, view.status, SetReady(view, false, "InvalidReference", e.text), true);
    case NotReady =>
      SyncKeeps(w1, view, view.status, SetReady(view, false, "WaitingForReference", WAITING_MESSAGE), true);
    case Resolved(image, network, volume) =>
      ResolvedIsSourced(w1, view, network, volume);
      CreateNewKeeps(w1, view.status, view,
                     ServerPayload(view, image, network, volume));
  }

  /** The re-read object has whatever finalizer the view had, and a write based
      on it fails if anything changed since. */
  lemma CreateAfterRereadKeeps(w: World, view: Object)
    requires AtRest(w) && InHistory(w, view) && view.finalizer && view.status.id == ""
    ensures AtRest(CreateAfterReread(w, view, true).0)
  {
    hide Enter, CreateNew, CreateWithRefs;
    EnterKeeps(w);
    var (w1, reread) := FreshRead(w);
    if reread.Current? && reread.obj.status.id == "" {
      var o := reread.obj;
      ViewStays(w, w1, view);
      assert o.finalizer by {
        assert view.version == o.version || Follows(w1.history[view.version], w1.history[o.version]);
      }
      match o.spec
      case ServerSpec(spec) => CreateWithRefsKeeps(w1, o);
      case VolumeSpec(spec) =>
        CreateNewKeeps(w1, view.status, o, VolumePayload(o));
      case NetworkSpec(spec) =>
        CreateNewKeeps(w1, view.status, o, NetworkPayload(o));
      case ClusterSpec(spec) =>
    }
  }

  // ---- whole reconciles

  lemma ReconcileExistingKeeps(w: World, view: Object, elide: bool)
    requires AtRest(w) && InHistory(w, view) && view.finalizer && view.status.id != ""
    ensures AtRest(ReconcileExisting(w, view, elide).0)
  {
    hide Get, Act, Sync, Transitional, Broken, ReadyReason;
    GetKeeps(w, view.status.id);
    var (w1, got) := Get(w, view.status.id);
    assert view.status.id in w1.used && !Adopted(view.spec);
    match got
    case NotShown(e) =>
      if IsNotFound(e) {
        SyncKeeps(w1, view, view.status, Forgotten(w.kind, view), elide);
      }
    case Shown(res) =>
      var seen := Observe(view, res);
      if Steady(w.kind, StateOf(res)) && Drift(seen, res).Some? {
        ActKeeps(w1, view, Drift(seen, res).value);
      } else {
        SyncKeeps(w1, view, view.status, Verdict(w.kind, seen, res).0, elide);
      }
  }

  lemma ReportDeletingKeeps(w: World, view: Object, seen: Object, elide: bool)
    requires AtRest(w) && InHistory(w, view) && view.finalizer && view.status.id != ""
    requires seen.version == view.version && seen.status.id == view.status.id
    ensures AtRest(ReportDeleting(w, view, seen, elide).0)
  {
    SyncKeeps(w, view, view.status, SetReady(seen, false, "Deleting", StateMessage(w.kind, seen.status.state)), elide);
  }

  lemma ReconcileDeleteKeeps(w: World, view: Object, elide: bool)
    requires AtRest(w) && InHistory(w, view) && view.deleting
    ensures AtRest(ReconcileDelete(w, view, elide).0)
  {
    hide Get, Discard, ReportDeleting, RemoveFinalizer;
    if view.finalizer {
      if view.status.id == "" {
        RemoveFinalizerKeeps(w, view);
      } else {
        GetKeeps(w, view.status.id);
        var (w1, got) := Get(w, view.status.id);
        assert view.status.id in w1.used;
        match got
        case NotShown(e) =>
          if IsNotFound(e) {
            RemoveFinalizerKeeps(w1, view);
          }
        case Shown(res) =>
          var seen := Observe(view, res);
          ReportDeletingKeeps(w1, view, seen, elide);
          DiscardKeeps(w1, view);
          ReportDeletingKeeps(Discard(w1, view.status.id).0, view, seen, elide);
      }
    }
  }

  /** Every reconcile keeps the invariant, whatever version of the object it
      starts from and whatever happens during it. */
  lemma ReconcileKeeps(w: World, view: Object)
    requires AtRest(w) && InHistory(w, view)
    ensures AtRest(Reconcile(w, view).0)
  {
    assert !Adopted(view.spec);
    if view.deleting {
      ReconcileDeleteKeeps(w, view, true);
    } else if !view.finalizer {
      AddFinalizerKeeps(w, view);
    } else if view.status.id == "" {
      CreateAfterRereadKeeps(w, view);
    } else {
      ReconcileExistingKeeps(w, view, true);
    }
  }
}
