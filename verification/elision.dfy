/** Skipping a status write that would change nothing. */
module Elision {
  import opened Common
  import opened StackitErrors
  import opened Environment
  import opened Lifecycle
  import opened Consistency
  import opened Runs
  import Clusters
  import Volumes

  function StoredStatus(w: World): Option<Status> {
    if w.obj.Some? then Some(w.obj.value.status) else None
  }

  /** Both worlds agree on everything but the number of stored versions. */
  predicate SameOutcome(v: World, w: World) {
    && StoredStatus(v) == StoredStatus(w) && v.obj.Some? == w.obj.Some?
    && (v.obj.Some? ==> v.obj.value.(version := 0) == w.obj.value.(version := 0))
    && v.live == w.live && v.used == w.used && v.mine == w.mine && v.calls == w.calls && v.future == w.future
  }

  /** Skipping the write when the snapshot equals the new status is the same as
      always writing, exactly unless the snapshot was not the status of the
      version written to and the write would have gone through. */
  lemma ElisionExact(w: World, view: Object, before: Status, o: Object)
    requires Consistent(w) && InHistory(w, view) && o.version == view.version
    ensures SameOutcome(Sync(w, before, o, true).0, Sync(w, before, o, false).0) <==>
              (before == o.status && view.status != o.status ==> !Lands(Enter(w), NextReply(w), o))
  {
    EnterDrifts(w);
    var w1 := Enter(w);
    if Lands(w1, NextReply(w), o) {
      WriteNeedsCurrentView(w1, NextReply(w), view, o);
    }
  }

  /** With the view's own status as the snapshot, skipping is always the same. */
  lemma OwnSnapshot(w: World, view: Object, o: Object)
    requires Consistent(w) && InHistory(w, view) && o.version == view.version
    ensures SameOutcome(Sync(w, view.status, o, true).0, Sync(w, view.status, o, false).0)
  {
    ElisionExact(w, view, view.status, o);
  }

  lemma GetConsistent(w: World, view: Object, id: string)
    requires Consistent(w) && InHistory(w, view)
    ensures Consistent(Get(w, id).0) && InHistory(Get(w, id).0, view) && Get(w, id).0.kind == w.kind
  {
    EnterDrifts(w);
  }

  lemma SameIsSame(w: World)
    ensures SameOutcome(w, w)
  {
  }

  /** From any view, stale or not, a reconcile of an existing resource leaves the
      same status, the same resources and the same calls whether it skips
      unneeded writes or not. */
  lemma ElisionRefinesExisting(w: World, view: Object)
    requires Consistent(w) && InHistory(w, view)
    ensures SameOutcome(ReconcileExisting(w, view, true).0, ReconcileExisting(w, view, false).0)
  {
    hide Get, Act, Sync, Drift, Transitional, Broken, ReadyReason;
    GetConsistent(w, view, view.status.id);
    var (w1, got) := Get(w, view.status.id);
    match got
    case NotShown(e) =>
      if !IsNotFound(e) {
        SameIsSame(w1);
      } else if Adopted(view.spec) {
        OwnSnapshot(w1, view, SetReady(view, false, "NotFound", NotFoundMessage(w.kind)));
      } else {
        OwnSnapshot(w1, view, Forgotten(w.kind, view));
      }
    case Shown(res) =>
      var seen := Observe(view, res);
      if Steady(w.kind, StateOf(res)) && !Adopted(view.spec) && Drift(seen, res).Some? {
        SameIsSame(Act(w1, view.status.id, Drift(seen, res).value).0);
      } else {
        OwnSnapshot(w1, view, Verdict(w.kind, seen, res).0);
      }
  }

  lemma DiscardConsistent(w: World, view: Object, id: string)
    requires Consistent(w) && InHistory(w, view)
    ensures Consistent(Discard(w, id).0) && InHistory(Discard(w, id).0, view)
  {
    hide Enter;
    EnterDrifts(w);
    var w1 := Record(Enter(w), Delete, id);
    assert Consistent(w1);
    assert CloudConsistent(Remove(w1, id)) && CloudConsistent(Become(w1, id, NextReply(w)));
  }

  lemma ElisionRefinesDelete(w: World, view: Object)
    requires Consistent(w) && InHistory(w, view)
    ensures SameOutcome(ReconcileDelete(w, view, true).0, ReconcileDelete(w, view, false).0)
  {
    hide Get, Discard, Sync;
    if view.finalizer && view.status.id != "" {
      GetConsistent(w, view, view.status.id);
      var (w1, got) := Get(w, view.status.id);
      if got.Shown? {
        var seen := Observe(view, got.res);
        var o := SetReady(seen, false, "Deleting", StateMessage(w.kind, seen.status.state));
        OwnSnapshot(w1, view, o);
        DiscardConsistent(w1, view, view.status.id);
        OwnSnapshot(Discard(w1, view.status.id).0, view, o);
      }
    }
  }

  lemma AdoptElision(w: World, view: Object, id: string)
    requires Consistent(w) && InHistory(w, view)
    ensures SameOutcome(Adopt(w, view, id, true).0, Adopt(w, view, id, false).0)
  {
    hide Get, Sync;
    GetConsistent(w, view, id);
    var (w1, got) := Get(w, id);
    if got.NotShown? {
      SameIsSame(w1);
      OwnSnapshot(w1, view, SetReady(view, false, "NotFound", NotFoundMessage(w.kind)));
    } else {
      OwnSnapshot(w1, view, Observe(WithId(view, id), got.res));
    }
  }

  lemma UpsertConsistent(w: World, view: Object, name: string, payload: Clusters.ClusterPayload)
    requires Consistent(w) && InHistory(w, view)
    ensures Consistent(Upsert(w, name, payload, false).0) && InHistory(Upsert(w, name, payload, false).0, view)
    ensures Upsert(w, name, payload, false).0.kind == w.kind
  {
    hide Enter, PutCluster;
    EnterDrifts(w);
    var r := NextReply(w);
    var w1 := Record(Enter(w), Create(UpsertCluster(payload)), name);
    assert CloudConsistent(w1);
    if name != "" && KindOf(r.result) == w1.kind {
      PutConsistent(w1, name, r.result, r.error.None?);
      PutConsistent(w1, name, r.result, false);
      PutStoresNothing(w1, name, r.result, r.error.None?);
      PutStoresNothing(w1, name, r.result, false);
    }
  }

  lemma PutStoresNothing(w: World, name: string, res: Resource, toBeStored: bool)
    ensures var w1 := PutCluster(w, name, res, toBeStored);
            w1.obj == w.obj && w1.history == w.history && w1.kind == w.kind
  {
  }

  lemma CreateByNameElision(w: World, view: Object)
    requires Consistent(w) && InHistory(w, view) && view.spec.ClusterSpec?
    ensures var spec := view.spec.cluster;
            SameOutcome(CreateByName(w, view, spec, true).0, CreateByName(w, view, spec, false).0)
  {
    hide Get, Upsert, Sync;
    var name, payload := NameOr(view.spec.cluster.name, view.name), Clusters.Payload(view.spec.cluster);
    UpsertConsistent(w, view, name, payload);
    var (w1, created) := Upsert(w, name, payload, false);
    match created
    case Accepted(_, res) => OwnSnapshot(w1, view, CreatedStatus(w1.kind, view, name, res));
    case Refused(e) =>
      GetConsistent(w1, view, name);
      var (w2, got) := Get(w1, name);
      SameIsSame(w2);
      if got.Shown? {
        OwnSnapshot(w2, view, CreatedStatus(w2.kind, view, name, got.res));
      }
      OwnSnapshot(w1, view, SetReady(view, false, "CreateFailed", e.text));
  }

  /** What a create that goes out reports in the status, and the world in which
      it does so: the refusal, or the new ID. */
  function Report(w: World, o: Object, payload: CreatePayload): (World, Option<Object>) {
    var (w1, created) := Post(w, payload);
    (w1, match created
         case Refused(e) => Some(SetReady(o, false, "CreateFailed", e.text))
         case Accepted(id, res) =>
           if id == "" && w1.kind != KNetwork then None else Some(CreatedStatus(w1.kind, o, id, res)))
  }

  /** The report equals the snapshot, the stored status does not, and the write
      would have landed. */
  predicate Drops(w: World, before: Status, o: Object, payload: CreatePayload) {
    var (w1, report) := Report(w, o, payload);
    && report.Some? && before == report.value.status && before != o.status
    && Lands(Enter(w1), NextReply(w1), report.value)
  }

  lemma PostConsistent(w: World, view: Object, payload: CreatePayload)
    requires Consistent(w) && InHistory(w, view)
    ensures var w1 := Post(w, payload).0; Consistent(w1) && InHistory(w1, view) && w1.kind == w.kind
  {
    hide Enter, Post;
    EnterDrifts(w);
    PostInCloud(w, payload);
  }

  /** A create call changes nothing in the API server. */
  lemma PostInCloud(w: World, payload: CreatePayload)
    requires CloudConsistent(Enter(w))
    ensures var w1 := Post(w, payload).0;
            CloudConsistent(w1) && w1.obj == Enter(w).obj && w1.history == Enter(w).history && w1.kind == Enter(w).kind
  {
    hide Enter;
  }

  lemma CreateNewElision(w: World, before: Status, o: Object, payload: CreatePayload)
    requires Consistent(w) && InHistory(w, o)
    ensures SameOutcome(CreateNew(w, before, o, payload, true).0, CreateNew(w, before, o, payload, false).0) <==>
              !Drops(w, before, o, payload)
  {
    hide Post, Sync, Lands, SameOutcome, Consistent;
    PostConsistent(w, o, payload);
    var (w1, report) := Report(w, o, payload);
    SameIsSame(w1);
    if report.Some? {
      ElisionExact(w1, o, before, report.value);
    }
  }

  lemma ReadRefConsistent(w: World, view: Object, bootVolume: bool, name: string)
    requires Consistent(w) && InHistory(w, view)
    ensures Consistent(ReadRef(w, bootVolume, name).0) && InHistory(ReadRef(w, bootVolume, name).0, view)
  {
    EnterDrifts(w);
  }

  lemma CreateWithRefsElision(w: World, o: Object)
    requires Consistent(w) && InHistory(w, o) && o.spec.ServerSpec?
    ensures SameOutcome(CreateWithRefs(w, o, true).0, CreateWithRefs(w, o, false).0)
  {
    hide ReadRef, Sync, CreateNew, SameOutcome, Consistent, Report;
    var spec := o.spec.server;
    if spec.networkRef.Some? {
      ReadRefConsistent(w, o, false, spec.networkRef.value);
    }
    var w1 := ResolveNetwork(w, o.spec.server).0;
    if spec.bootVolumeRef.Some? {
      ReadRefConsistent(w1, o, true, spec.bootVolumeRef.value);
    }
    var (w2, r) := Resolve(w, o.spec.server);
    match r
    case Invalid(e) => OwnSnapshot(w2, o, SetReady(o, false, "InvalidReference", e.text));
    case NotReady =>
      OwnSnapshot(w2, o, SetReady(o, false, "WaitingForReference", WAITING_MESSAGE));
    case Resolved(image, network, volume) =>
      CreateNewElision(w2, o.status, o, ServerPayload(o, image, network, volume));
  }

  /** A Volume or Network create whose report is dropped: the snapshot was taken
      from the view, before the object was re-read. */
  predicate ReportDropped(w: World, view: Object) {
    && !view.deleting && !Adopted(view.spec) && view.finalizer && view.status.id == ""
    && var (w1, reread) := FreshRead(w);
       && reread.Current? && reread.obj.status.id == ""
       && match reread.obj.spec
          case VolumeSpec(_) => Drops(w1, view.status, reread.obj, VolumePayload(reread.obj))
          case NetworkSpec(_) => Drops(w1, view.status, reread.obj, NetworkPayload(reread.obj))
          case _ => false
  }

  lemma CreateElision(w: World, view: Object)
    requires Consistent(w) && InHistory(w, view)
    requires !view.deleting && !Adopted(view.spec) && view.finalizer && view.status.id == ""
    ensures SameOutcome(CreateAfterReread(w, view, true).0, CreateAfterReread(w, view, false).0) <==>
              !ReportDropped(w, view)
  {
    hide CreateNew, CreateWithRefs, Drops, SameOutcome, Enter;
    EnterDrifts(w);
    var (w1, reread) := FreshRead(w);
    SameIsSame(w1);
    if reread.Current? && reread.obj.status.id == "" {
      var o := reread.obj;
      match o.spec
      case ServerSpec(_) => CreateWithRefsElision(w1, o);
      case VolumeSpec(_) => CreateNewElision(w1, view.status, o, VolumePayload(o));
      case NetworkSpec(_) => CreateNewElision(w1, view.status, o, NetworkPayload(o));
      case ClusterSpec(_) =>
    }
  }

  /** For every kind, view and script a reconcile that skips unneeded writes ends
      as one that always writes, except exactly when the report of a Volume or
      Network create is dropped. */
  lemma ElisionExactForReconciles(w: World, view: Object)
    requires Consistent(w) && InHistory(w, view)
    ensures Reconcile(w, view).0 == Steps(w, view, true).0
    ensures SameOutcome(Steps(w, view, true).0, Steps(w, view, false).0) <==> !ReportDropped(w, view)
  {
    hide ReconcileDelete, ReconcileExisting, CreateAfterReread, CreateByName, Adopt, SameOutcome, FreshRead, Drops;
    if view.deleting {
      ElisionRefinesDelete(w, view);
    } else if !Adopted(view.spec) && !view.finalizer {
      SameIsSame(AddFinalizer(w, view).0);
    } else if view.status.id != "" {
      ElisionRefinesExisting(w, view);
    } else if Adopted(view.spec) {
      AdoptElision(w, view, Existing(view.spec).value);
    } else if view.spec.ClusterSpec? {
      CreateByNameElision(w, view);
      RereadKeepsKind(w, view);
    } else {
      CreateElision(w, view);
    }
  }

  lemma RereadKeepsKind(w: World, view: Object)
    requires Consistent(w) && InHistory(w, view)
    ensures FreshRead(w).1.Current? ==> KindOfSpec(FreshRead(w).1.obj.spec) == KindOfSpec(view.spec)
  {
    EnterDrifts(w);
  }

  // ---- a run in which a report is dropped

  /** The script of a create that is refused: re-read, create, status write. */
  function RefusedScript(text: string): seq<Slot> {
    [Slot([], ACCEPTED), Slot([], SILENCE.(error := Some(Other(text)))), Slot([], ACCEPTED)]
  }

  function FailedCreate(o: Object, text: string): Object {
    SetReady(o, false, "CreateFailed", text)
  }

  /** A create of a Volume that is refused, from any view without an ID; what is
      stored then depends on the view's status. */
  lemma RefusedCreate(w: World, view: Object, text: string, elide: bool)
    requires w.future == RefusedScript(text) && w.inFlight.None? && w.obj.Some?
    requires !view.deleting && view.finalizer && view.status.id == "" && !Adopted(view.spec) && view.spec.VolumeSpec?
    requires w.obj.value.spec.VolumeSpec? && w.obj.value.status.id == ""
    ensures var (w1, r) := Steps(w, view, elide);
            && r == Failed(Other(text))
            && w1.inFlight.None?
            && if elide && view.status == FailedCreate(w.obj.value, text).status
               then w1.obj == w.obj && w1.history == w.history
               else
                 var o := FailedCreate(w.obj.value, text).(version := |w.history|);
                 w1.obj == Some(o) && w1.history == w.history + [o]
  {
    hide Volumes.CreatePayload;
    var o := w.obj.value;
    var w1 := Enter(w);
    assert w1 == w.(future := w.future[1..]);
    assert FreshRead(w) == (w1, Current(o));
    var (w2, created) := Post(w1, VolumePayload(o));
    assert created == Refused(Other(text));
    assert Enter(w1) == w1.(future := w1.future[1..]);
    assert w2.obj == w.obj && w2.history == w.history && w2.inFlight.None? && w2.future == [Slot([], ACCEPTED)];
    assert Enter(w2) == w2.(future := []);
  }

  function SomeVolume(): Object {
    Object(0, 1, false, false, "v", VolumeSpec(Volumes.VolumeSpec("", "eu01-1", 1, "", "", None, None, map[], None)),
           Status("", "", 0, VolumeMirror(0, ""), None))
  }

  /** The versions of a Volume that gets its finalizer, a create refused for one
      reason, and another refused for another. */
  function RefusedTwice(a: string, b: string): seq<Object> {
    var o1 := SomeVolume().(version := 1, finalizer := true);
    var o2 := FailedCreate(o1, a).(version := 2);
    [SomeVolume(), o1, o2, FailedCreate(o2, b).(version := 3)]
  }

  lemma TwoRefusals(a: string, b: string) returns (w: World, events: seq<Event>)
    requires a != b
    ensures InitialOwned(w) && w.kind == KVolume
    ensures var f, h := Run(w, events), RefusedTwice(a, b); f.history == h && f.obj == Some(h[3]) && f.inFlight.None?
  {
    hide Steps;
    var h := RefusedTwice(a, b);
    w := World(KVolume, Some(h[0]), [h[0]], map[], {}, {}, None, {}, [], {}, {}, []);
    events := [Reconciled(0, [Slot([], ACCEPTED)]), Reconciled(1, RefusedScript(a)), Reconciled(2, RefusedScript(b))];
    FinalizerIsAdded(w, h[0]);
    var w1 := Step(w, events[0]);
    RefusedCreate(w1.(future := RefusedScript(a)), h[1], a, true);
    var w2 := Step(w1, events[1]);
    assert w2.obj == Some(h[2]) && w2.history == h[..3];
    RefusedCreate(w2.(future := RefusedScript(b)), h[2], b, true);
    assert Step(w2, events[2]).history == h;
    ThreeSteps(w, events);
  }

  /** A reachable state and a view in which a report is dropped: a Volume gets its
      finalizer, a create is refused for one reason, the next for another; then
      a reconcile from the view of the first refusal is refused for the first
      reason again. It reports nothing, and the status keeps the other reason. */
  lemma OutdatedSnapshotHidesFailure(a: string, b: string) returns (w: World, events: seq<Event>)
    requires a != b
    ensures InitialOwned(w) && w.kind == KVolume
    ensures var f := Run(w, events).(future := RefusedScript(a));
            && |f.history| == 4 && f.obj.Some? && ReportDropped(f, f.history[2])
            && Reconcile(f, f.history[2]).1 == Failed(Other(a))
            && Reconcile(f, f.history[2]).0.obj == f.obj
            && f.obj.value.status.condition == Some(Condition(false, "CreateFailed", b, 1))
            && var written := Steps(f, f.history[2], false).0;
               written.obj.Some? && written.obj.value.status.condition == Some(Condition(false, "CreateFailed", a, 1))
  {
    hide Steps, Run, ReportDropped;
    w, events := TwoRefusals(a, b);
    var f := Run(w, events).(future := RefusedScript(a));
    RefusedCreate(f, f.history[2], a, true);
    RefusedCreate(f, f.history[2], a, false);
    InitialIsAtRest(w);
    RunKeeps(w, events);
    ElisionExactForReconciles(f, f.history[2]);
  }

  /** The resource is there, settled and as the spec wants it, and nothing moves
      or fails during the reconcile. */
  predicate Settled(w: World, o: Object, res: Resource) {
    && w.obj == Some(o) && InHistory(w, o)
    && o.status.id in w.live && w.live[o.status.id] == res
    && Steady(w.kind, StateOf(res)) && (Adopted(o.spec) || Drift(o, res).None?)
    && |w.future| >= 2 && w.future[0].moves == [] && w.future[1].moves == []
    && w.future[0].reply.error.None? && w.future[1].reply.error.None?
  }

  /** What a reconcile of a settled resource does: it stores its verdict, and
      nothing if that is stored already. */
  lemma SettledReconcile(w: World, o: Object, res: Resource)
    requires Settled(w, o, res)
    ensures var (w1, r) := ReconcileExisting(w, o, true);
            && r == After(RESYNC_PERIOD) && w1.calls == w.calls && w1.live == w.live && w1.kind == w.kind
            && w1.obj.Some? && InHistory(w1, w1.obj.value)
            && w1.obj.value.(version := o.version) == Verdict(w.kind, Observe(o, res), res).0
            && (Verdict(w.kind, Observe(o, res), res).0 == o ==> w1.obj == w.obj && w1.history == w.history)
  {
    assert Drift(Observe(o, res), res) == Drift(o, res);
    hide Drift, MirrorOf, StateOf, Transitional, Broken, ReadyReason;
    var w1 := Enter(w);
    assert w1 == w.(future := w.future[1..]);
    assert Get(w, o.status.id) == (w1.(seen := w1.seen + {(o.status.id, res)}), Shown(res));
    var w2 := Get(w, o.status.id).0;
    assert Enter(w2) == w2.(future := w2.future[1..]);
  }

  /** Watch events die out: the first reconcile of a settled resource leaves a
      status that the second one does not touch any more. No mutating call is
      made in either. */
  lemma SecondReconcileIsSilent(w: World, o: Object, res: Resource, again: seq<Slot>)
    requires Settled(w, o, res)
    requires |again| >= 2 && again[0].moves == [] && again[1].moves == []
    requires again[0].reply.error.None? && again[1].reply.error.None?
    ensures var (w1, r1) := ReconcileExisting(w, o, true);
            && r1 == After(RESYNC_PERIOD) && w1.obj.Some? && w1.calls == w.calls && w1.live == w.live
            && var (w2, r2) := ReconcileExisting(w1.(future := again), w1.obj.value, true);
               && r2 == After(RESYNC_PERIOD)
               && w2.obj == w1.obj && w2.history == w1.history && w2.calls == w1.calls && w2.live == w1.live
  {
    SettledReconcile(w, o, res);
    var w1 := ReconcileExisting(w, o, true).0;
    var p := w1.obj.value;
    var o1 := Verdict(w.kind, Observe(o, res), res).0;
    assert o1.spec == o.spec && o1.name == o.name && o1.generation == o.generation && o1.status.id == o.status.id;
    assert Drift(p, res) == Drift(o, res);
    MirrorSettles(o.status.mirror, res);
    assert Verdict(w.kind, Observe(p, res), res).0 == p;
    SettledReconcile(w1.(future := again), p, res);
  }

  /** Mirroring the same resource twice is mirroring it once. */
  lemma MirrorSettles(mirror: Mirror, res: Resource)
    ensures MirrorOf(MirrorOf(mirror, res), res) == MirrorOf(mirror, res)
  {
  }
}
