/** Owned Clusters: the create is an upsert under a name, so no fresh read is
    needed as long as the cache never goes back in time. */
module ClusterNames {
  import opened Common
  import opened StackitErrors
  import opened Environment
  import opened Lifecycle
  import opened Consistency
  import opened Runs
  import Clusters
  import Ownership

  function ClusterName(o: Object): string
    requires o.spec.ClusterSpec?
  {
    NameOr(o.spec.cluster.name, o.name)
  }

  predicate OwnedCluster(w: World) {
    Consistent(w) && w.kind == KCluster && !Adopted(w.history[0].spec)
  }

  /** An object with a stored name has the finalizer. */
  predicate Guarded(w: World) {
    StoredId(w) != "" ==> w.obj.value.finalizer
  }

  /** From a version without a name on, the only name that ever gets stored is
      the one this version asks for, while the cache may still return it. */
  predicate NamesFollow(w: World, oldest: nat)
    requires OwnedCluster(w)
  {
    forall v, u | oldest <= v < u < |w.history| && w.history[v].status.id == "" ::
      w.history[u].status.id in {"", ClusterName(w.history[v])}
  }

  /** A create goes out when no name is stored, or under the stored name. */
  predicate CreateSafe(c: CallRecord) {
    c.call.Create? ==> c.storedId in {"", c.target}
  }

  predicate CreatesSafe(w: World) {
    forall i | 0 <= i < |w.calls| :: CreateSafe(w.calls[i])
  }

  /** `oldest` is the oldest version the cache may still return. */
  predicate Inv(w: World, oldest: nat) {
    && OwnedCluster(w) && Guarded(w) && Ownership.Accounted(w)
    && NamesFollow(w, oldest) && CreatesSafe(w) && oldest < |w.history|
  }

  predicate AtRest(w: World, oldest: nat) {
    Inv(w, oldest) && w.inFlight.None?
  }

  lemma DriftKeeps(w: World, w1: World, oldest: nat)
    requires Inv(w, oldest) && Consistent(w1) && Drifts(w, w1)
    ensures Inv(w1, oldest)
  {
    assert w1.history[0] == w.history[0];
    var last := |w.history| - 1;
    forall v, u | oldest <= v < u < |w1.history| && w1.history[v].status.id == ""
      ensures w1.history[u].status.id in {"", ClusterName(w1.history[v])}
    {
      if u <= last {
        assert w1.history[u] == w.history[u] && w1.history[v] == w.history[v];
      } else {
        assert w1.history[u].status == w.history[last].status;
        if v < last {
          assert w1.history[v] == w.history[v];
          assert w.history[last].status.id in {"", ClusterName(w.history[v])};
        } else if v == last {
          assert w1.history[v] == w.history[v];
        }
      }
    }
  }

  lemma EnterKeeps(w: World, oldest: nat)
    requires Inv(w, oldest)
    ensures Inv(Enter(w), oldest) && Drifts(w, Enter(w))
  {
    EnterDrifts(w);
    DriftKeeps(w, Enter(w), oldest);
  }

  /** No fresh read is needed: when a view without a name is outdated because a
      name has been stored, that name is the one the view asks for. */
  lemma OutdatedViewAsksForTheStoredName(w: World, view: Object)
    requires Inv(w, view.version) && InHistory(w, view) && view.status.id == ""
    ensures StoredId(w) in {"", ClusterName(view)}
  {
  }

  // ---- single calls

  /** A status may be written if it keeps the name, clears a name under which
      nothing of the operator lives, or sets the name the view asks for. */
  predicate MayWrite(w: World, view: Object, o: Object)
    requires view.spec.ClusterSpec?
  {
    || (o.status.id == view.status.id && w.inFlight.None?)
    || (o.status.id == "" && view.status.id !in w.mine && w.inFlight.None?)
    || (view.status.id == "" && o.status.id == ClusterName(view) && w.inFlight in {None, Some(o.status.id)})
  }

  lemma StoreStatusKeeps(w: World, view: Object, o: Object)
    requires InHistory(w, view) && Inv(w, view.version) && w.obj == Some(view) && view.finalizer && MayWrite(w, view, o)
    ensures var w1 := Store(w, view.(status := o.status));
            AtRest(w1.(inFlight := None, lost := w1.lost - {o.status.id}), view.version)
  {
    StoreConsistent(w, view.(status := o.status));
    assert view == w.history[|w.history| - 1];
    var w1 := Store(w, view.(status := o.status));
    assert w1.history[0] == w.history[0];
  }

  lemma UpdateStatusKeeps(w: World, view: Object, o: Object)
    requires InHistory(w, view) && Inv(w, view.version) && o.version == view.version
    requires view.finalizer && MayWrite(w, view, o)
    ensures AtRest(UpdateStatus(w, o).0, view.version)
  {
    EnterKeeps(w, view.version);
    var w1 := Enter(w);
    var r := NextReply(w);
    if Lands(w1, r, o) {
      WriteNeedsCurrentView(w1, r, view, o);
      StoreStatusKeeps(w1, view, o);
    }
  }

  lemma SyncKeeps(w: World, view: Object, o: Object)
    requires InHistory(w, view) && Inv(w, view.version) && o.version == view.version
    requires view.finalizer && MayWrite(w, view, o)
    requires w.inFlight.Some? ==> view.status.id != o.status.id
    ensures AtRest(Sync(w, view.status, o, true).0, view.version)
  {
    EnterKeeps(w, view.version);
    UpdateStatusKeeps(w, view, o);
  }

  lemma FinalizerKeeps(w: World, view: Object, finalizer: bool)
    requires InHistory(w, view) && AtRest(w, view.version)
    requires if finalizer then !view.deleting else view.deleting && view.status.id !in w.mine
    ensures AtRest(Update(w, view.(finalizer := finalizer)).0, view.version)
  {
    EnterKeeps(w, view.version);
    var w1, o := Enter(w), view.(finalizer := finalizer);
    if Lands(w1, NextReply(w), o) {
      WriteNeedsCurrentView(w1, NextReply(w), view, o);
      assert view == w1.history[|w1.history| - 1];
      if finalizer {
        StoreConsistent(w1, o);
        assert Store(w1, o).history[0] == w1.history[0];
      }
    }
  }

  lemma GetKeeps(w: World, oldest: nat, id: string)
    requires Inv(w, oldest)
    ensures var (w1, got) := Get(w, id);
            && Inv(w1, oldest) && Grows(w, w1) && w1.inFlight == w.inFlight
            && (got.NotShown? && IsNotFound(got.error) ==> id !in w1.mine)
  {
    EnterKeeps(w, oldest);
  }

  lemma PutKeeps(w: World, oldest: nat, name: string, res: Resource, toBeStored: bool)
    requires AtRest(w, oldest) && name != "" && KindOf(res) == KCluster
    ensures var w1 := PutCluster(w, name, res, toBeStored);
            Inv(w1, oldest) && Grows(w, w1) && w1.inFlight in {None, if toBeStored then Some(name) else None}
  {
  }

  lemma RecordKeeps(w: World, oldest: nat, call: Call, name: string)
    requires AtRest(w, oldest) && (call.Create? ==> StoredId(w) in {"", name})
    ensures AtRest(Record(w, call, name), oldest)
  {
    assert CreateSafe(CallRecord(call, name, StoredId(w), name in w.live, w.history, w.refs));
  }

  lemma UpsertKeeps(w: World, view: Object, name: string, payload: Clusters.ClusterPayload, resubmit: bool)
    requires InHistory(w, view) && AtRest(w, view.version)
    requires !resubmit ==> view.status.id == "" && name == ClusterName(view)
    ensures var (w1, c) := Upsert(w, name, payload, resubmit);
            && Inv(w1, view.version) && Grows(w, w1)
            && w1.inFlight in {None, if c.Accepted? && !resubmit then Some(name) else None}
            && (c.Accepted? ==> name != "" && c.id == name)
  {
    hide Enter, PutCluster, ClusterName, NamesFollow, CreatesSafe, Guarded, Ownership.Accounted, HistoryConsistent;
    EnterKeeps(w, view.version);
    var call := if resubmit then Correct(OnCluster(payload)) else Create(UpsertCluster(payload));
    var w1 := Record(Enter(w), call, name);
    if !resubmit {
      OutdatedViewAsksForTheStoredName(Enter(w), view);
    }
    RecordKeeps(Enter(w), view.version, call, name);
    if name != "" && KindOf(NextReply(w).result) == KCluster {
      PutKeeps(w1, view.version, name, NextReply(w).result, NextReply(w).error.None? && !resubmit);
    }
  }

  lemma BecomeKeeps(w: World, oldest: nat, id: string, r: Reply)
    requires AtRest(w, oldest)
    ensures AtRest(Become(w, id, r), oldest) && Grows(w, Become(w, id, r))
  {
  }

  lemma RemoveKeeps(w: World, oldest: nat, id: string)
    requires AtRest(w, oldest)
    ensures AtRest(Remove(w, id), oldest) && Grows(w, Remove(w, id))
  {
  }

  lemma DiscardKeeps(w: World, oldest: nat, id: string)
    requires AtRest(w, oldest)
    ensures AtRest(Discard(w, id).0, oldest) && Grows(w, Discard(w, id).0)
  {
    EnterKeeps(w, oldest);
    var w1 := Record(Enter(w), Delete, id);
    RecordKeeps(Enter(w), oldest, Delete, id);
    BecomeKeeps(w1, oldest, id, NextReply(w));
    RemoveKeeps(w1, oldest, id);
  }

  // ---- whole reconciles

  lemma StoreCreatedKeeps(w: World, view: Object, name: string, res: Resource)
    requires InHistory(w, view) && Inv(w, view.version) && view.finalizer && view.status.id == ""
    requires name == ClusterName(view) && name != "" && w.inFlight in {None, Some(name)}
    ensures AtRest(StoreCreated(w, view.status, view, name, res, true).0, view.version)
  {
    SyncKeeps(w, view, CreatedStatus(w.kind, view, name, res));
  }

  lemma CreateKeeps(w: World, view: Object)
    requires InHistory(w, view) && AtRest(w, view.version) && view.finalizer && view.status.id == ""
    ensures AtRest(CreateByName(w, view, view.spec.cluster, true).0, view.version)
  {
    var name, payload := ClusterName(view), Clusters.Payload(view.spec.cluster);
    UpsertKeeps(w, view, name, payload, false);
    var (w1, created) := Upsert(w, name, payload, false);
    match created
    case Accepted(_, res) => StoreCreatedKeeps(w1, view, name, res);
    case Refused(e) =>
      if IsAlreadyExists(e) {
        GetKeeps(w1, view.version, name);
        var (w2, got) := Get(w1, name);
        assert view.name != "";
        if got.Shown? {
          StoreCreatedKeeps(w2, view, name, got.res);
        }
      } else {
        SyncKeeps(w1, view, SetReady(view, false, "CreateFailed", e.text));
      }
  }

  lemma ExistingKeeps(w: World, view: Object)
    requires InHistory(w, view) && AtRest(w, view.version) && view.finalizer && view.status.id != ""
    ensures AtRest(ReconcileExisting(w, view, true).0, view.version)
  {
    hide Get, Upsert, Sync, Transitional, Broken, ReadyReason;
    GetKeeps(w, view.version, view.status.id);
    var (w1, got) := Get(w, view.status.id);
    assert !Adopted(view.spec);
    match got
    case NotShown(e) =>
      if IsNotFound(e) {
        SyncKeeps(w1, view, Forgotten(w.kind, view));
      }
    case Shown(res) =>
      var seen := Observe(view, res);
      if Steady(w.kind, StateOf(res)) && Drift(seen, res).Some? {
        UpsertKeeps(w1, view, view.status.id, Drift(seen, res).value.cluster, true);
      } else {
        SyncKeeps(w1, view, Verdict(w.kind, seen, res).0);
      }
  }

  lemma DeleteKeeps(w: World, view: Object)
    requires InHistory(w, view) && AtRest(w, view.version) && view.deleting
    ensures AtRest(ReconcileDelete(w, view, true).0, view.version)
  {
    hide Get, Discard, Sync, Update;
    if view.finalizer {
      if view.status.id == "" {
        FinalizerKeeps(w, view, false);
      } else {
        GetKeeps(w, view.version, view.status.id);
        var (w1, got) := Get(w, view.status.id);
        match got
        case NotShown(e) =>
          if IsNotFound(e) {
            FinalizerKeeps(w1, view, false);
          }
        case Shown(res) =>
          var seen := Observe(view, res);
          var o := SetReady(seen, false, "Deleting", StateMessage(w.kind, seen.status.state));
          DiscardKeeps(w1, view.version, view.status.id);
          SyncKeeps(w1, view, o);
          SyncKeeps(Discard(w1, view.status.id).0, view, o);
      }
    }
  }

  lemma WeakerBound(w: World, oldest: nat, view: Object)
    requires AtRest(w, oldest) && InHistory(w, view) && oldest <= view.version
    ensures AtRest(w, view.version)
  {
  }

  /** A reconcile from a view no older than the ones before keeps the invariant. */
  lemma ReconcileKeeps(w: World, oldest: nat, view: Object)
    requires AtRest(w, oldest) && InHistory(w, view) && oldest <= view.version
    ensures AtRest(Reconcile(w, view).0, view.version)
  {
    WeakerBound(w, oldest, view);
    assert !Adopted(view.spec);
    if view.deleting {
      DeleteKeeps(w, view);
    } else if !view.finalizer {
      FinalizerKeeps(w, view, true);
    } else if view.status.id == "" {
      CreateKeeps(w, view);
    } else {
      ExistingKeeps(w, view);
    }
  }

  // ---- runs

  /** The cache never goes back: each view is at least as new as the one before. */
  predicate MonotoneViews(events: seq<Event>, oldest: nat)
    decreases |events|
  {
    events == [] ||
    match events[0]
    case Reconciled(view, _) => oldest <= view && MonotoneViews(events[1..], view)
    case Outside(_) => MonotoneViews(events[1..], oldest)
  }

  lemma {:induction false} EarlierBound(events: seq<Event>, a: nat, b: nat)
    requires a <= b && MonotoneViews(events, b)
    ensures MonotoneViews(events, a)
    decreases |events|
  {
    if events != [] && events[0].Outside? {
      EarlierBound(events[1..], a, b);
    }
  }

  /** In every run with a monotone cache, across any edits of spec.name, each live
      cluster the operator made carries the stored name or a lost one, at most
      one of them if nothing was lost, and none outlives the object unless lost;
      and every create was issued under the stored name or when there was none. */
  lemma {:induction false} ClusterRunsAreAccounted(w: World, oldest: nat, events: seq<Event>)
    requires AtRest(w, oldest) && MonotoneViews(events, oldest)
    ensures var f := Run(w, events);
            && (forall id | id in f.mine :: id == StoredId(f) || id in f.lost)
            && (f.lost == {} ==> |f.mine| <= 1)
            && (f.obj.None? ==> f.mine <= f.lost)
            && (forall i | 0 <= i < |f.calls| :: CreateSafe(f.calls[i]))
    decreases |events|
  {
    hide Reconcile, Moves;
    if events == [] {
      if w.lost == {} {
        assert w.mine <= {StoredId(w)};
        SubsetSize(w.mine, {StoredId(w)});
      }
    } else {
      var w1 := Step(w, events[0]);
      match events[0]
      case Reconciled(view, script) =>
        if view < |w.history| {
          var v := w.(future := script);
          assert AtRest(v, oldest);
          ReconcileKeeps(v, oldest, v.history[view]);
          ClusterRunsAreAccounted(w1, view, events[1..]);
        } else {
          EarlierBound(events[1..], oldest, view);
          ClusterRunsAreAccounted(w1, oldest, events[1..]);
        }
      case Outside(ms) =>
        MovesDrift(w, ms);
        DriftKeeps(w, w1, oldest);
        ClusterRunsAreAccounted(w1, oldest, events[1..]);
    }
  }

  /** The run theorem applies to every new object. */
  lemma InitialIsAtRest(w: World)
    requires Initial(w) && w.kind == KCluster && !Adopted(w.obj.value.spec)
    ensures AtRest(w, 0)
  {
  }

  /** A lost name is picked up again: as long as the object is not deleted and
      still asks for the name, the next create whose calls go through stores
      it, whether STACKIT accepts the upsert or answers that the name exists. */
  lemma NextCreateReattaches(w: World, view: Object, name: string)
    requires AtRest(w, view.version) && w.obj == Some(view) && view.finalizer && !view.deleting && view.status.id == ""
    requires name == ClusterName(view) && name in w.lost && name in w.live
    requires |w.future| >= 3 && w.future[0].moves == [] && w.future[1].moves == [] && w.future[2].moves == []
    requires KindOf(w.future[0].reply.result) == KCluster && !w.future[0].reply.tookEffect
    requires w.future[0].reply.error.None? || IsAlreadyExists(w.future[0].reply.error.value)
    requires w.future[1].reply.error.None? && w.future[2].reply.error.None?
    ensures var (w1, r) := Reconcile(w, view);
            && r == After(SLOW_POLL_INTERVAL) && StoredId(w1) == name
            && name !in w1.lost && w1.live.Keys == w.live.Keys && w1.mine == w.mine
  {
    hide CreateByName;
    assert view == w.history[|w.history| - 1] && !Adopted(view.spec);
    CalmUpsertReattaches(w, view, name);
  }

  lemma CalmUpsertReattaches(w: World, view: Object, name: string)
    requires Consistent(w) && w.kind == KCluster && w.inFlight.None? && w.obj == Some(view) && view.status.id == ""
    requires view.spec.ClusterSpec? && name == ClusterName(view) && name in w.live
    requires |w.future| >= 3 && w.future[0].moves == [] && w.future[1].moves == [] && w.future[2].moves == []
    requires KindOf(w.future[0].reply.result) == KCluster && !w.future[0].reply.tookEffect
    requires w.future[0].reply.error.None? || IsAlreadyExists(w.future[0].reply.error.value)
    requires w.future[1].reply.error.None? && w.future[2].reply.error.None?
    ensures var (w1, r) := CreateByName(w, view, view.spec.cluster, true);
            && r == After(SLOW_POLL_INTERVAL) && StoredId(w1) == name
            && name !in w1.lost && w1.live.Keys == w.live.Keys && w1.mine == w.mine
  {
    hide StoreCreated, IsAlreadyExists;
    assert name != "" by {
      assert "" !in w.used;
    }
    var (w1, created) := Upsert(w, name, Clusters.Payload(view.spec.cluster), false);
    assert w1.obj == w.obj && w1.inFlight.None? && w1.live.Keys == w.live.Keys && w1.mine == w.mine;
    if created.Accepted? {
      assert w1.future == w.future[1..] && w1.kind == KCluster;
      NameIsStored(w1, view, name, created.res);
    } else {
      var (w2, got) := Get(w1, name);
      assert got.Shown? && w2.future == w.future[1..][1..] && w2.kind == KCluster;
      NameIsStored(w2, view, name, got.res);
    }
  }

  lemma NameIsStored(w: World, view: Object, name: string, res: Resource)
    requires w.kind == KCluster && w.obj == Some(view) && view.status.id == "" && name != ""
    requires w.future != [] && w.future[0].moves == [] && w.future[0].reply.error.None?
    ensures var (w1, r) := StoreCreated(w, view.status, view, name, res, true);
            && r == After(SLOW_POLL_INTERVAL) && StoredId(w1) == name
            && name !in w1.lost && w1.live == w.live && w1.mine == w.mine
  {
  }

  lemma MatchingClusterIsLeftAlone(w: World, view: Object, c: Clusters.Cluster)
    requires Consistent(w) && Consistent(Get(w, view.status.id).0) && view.spec.ClusterSpec?
    requires Get(w, view.status.id).1 == Shown(Cluster(c)) && Clusters.Drift(view.spec.cluster, c).None?
    ensures var (w1, r) := ReconcileExisting(w, view, true); w1.calls == w.calls && r != Requeue
  {
    hide Enter, Transitional, Broken, ReadyReason, Clusters.Drift, Consistent;
    EnterDrifts(w);
    EnterDrifts(Get(w, view.status.id).0);
  }

  /** A cluster that comes back as it was submitted is left alone: with distinct
      pool names one upsert per change of the spec is enough, however SKE
      reorders pools and zones and whatever day it puts the window on. */
  lemma EchoedClusterIsLeftAlone(w: World, oldest: nat, view: Object, c: Clusters.Cluster)
    requires AtRest(w, oldest) && InHistory(w, view) && view.finalizer && !view.deleting && view.status.id != ""
    requires Get(w, view.status.id).1 == Shown(Cluster(c))
    requires Clusters.DistinctNames(view.spec.cluster.pools)
    requires Clusters.Echoes(Clusters.Payload(view.spec.cluster), c)
    ensures var (w1, r) := Reconcile(w, view); w1.calls == w.calls && r != Requeue
  {
    Clusters.UpsertFixedPoint(view.spec.cluster, c);
    assert !Adopted(view.spec);
    GetKeeps(w, oldest, view.status.id);
    MatchingClusterIsLeftAlone(w, view, c);
  }

  // ---- exactly when a name gets lost

  /** The upsert a reconcile makes, if it makes one: the world in which it goes
      out, and the name. */
  function UpsertCall(w: World, view: Object): Option<(World, string)>
    requires view.spec.ClusterSpec?
  {
    if view.deleting || !view.finalizer then None
    else if view.status.id == "" then Some((w, ClusterName(view)))
    else
      var (w1, got) := Get(w, view.status.id);
      if got.Shown? && Steady(w.kind, StateOf(got.res)) && Drift(Observe(view, got.res), got.res).Some?
      then Some((w1, view.status.id)) else None
  }

  /** An upsert under the name makes a cluster, whatever the operator is told. */
  predicate MakesCluster(w: World, name: string) {
    var r := NextReply(w);
    name != "" && name !in Enter(w).live && KindOf(r.result) == KCluster && (r.error.Some? ==> r.tookEffect)
  }

  /** From v to w the name was lost, or nothing; no other name was. */
  predicate LosesOnly(v: World, w: World, name: string, grown: bool) {
    if grown then name in w.lost && w.lost <= v.lost + {name} else w.lost <= v.lost
  }

  /** The environment does not change the stored name, since the finalizer keeps
      an object that has one. */
  lemma EnterStored(w: World, oldest: nat)
    requires Inv(w, oldest)
    ensures var w1 := Enter(w);
            StoredId(w1) == StoredId(w) && w1.lost == w.lost && w1.inFlight == w.inFlight && w1.kind == KCluster
  {
    EnterDrifts(w);
  }

  lemma GetStored(w: World, oldest: nat, id: string)
    requires Inv(w, oldest)
    ensures var w1 := Get(w, id).0; StoredId(w1) == StoredId(w) && w1.lost == w.lost && w1.inFlight == w.inFlight
  {
    EnterStored(w, oldest);
  }

  /** A status write stores its name, or loses the name in flight if that is not
      stored anyway. */
  lemma WriteOutcome(w: World, oldest: nat, o: Object)
    requires Inv(w, oldest)
    ensures var f := UpdateStatus(w, o).0;
            if Lands(Enter(w), NextReply(w), o) then f.lost == w.lost - {o.status.id} && StoredId(f) == o.status.id
            else
              && StoredId(f) == StoredId(w)
              && f.lost ==
                   if w.inFlight.Some? && w.inFlight.value != StoredId(w) then w.lost + {w.inFlight.value} else w.lost
  {
    EnterStored(w, oldest);
  }

  lemma SyncLosesNothing(w: World, view: Object, o: Object)
    requires InHistory(w, view) && AtRest(w, view.version)
    ensures Sync(w, view.status, o, true).0.lost <= w.lost
  {
    EnterStored(w, view.version);
    WriteOutcome(w, view.version, o);
  }

  lemma RefusalStored(w: World, view: Object, e: Error)
    requires InHistory(w, view) && AtRest(w, view.version) && view.status.id == ""
    ensures var f := ReportRefused(w, view.status, view, e, true).0;
            f.lost <= w.lost && w.lost <= f.lost + {""} && StoredId(f) == StoredId(w)
  {
    EnterStored(w, view.version);
    var o := SetReady(view, false, "CreateFailed", e.text);
    WriteOutcome(w, view.version, o);
    EnterDrifts(w);
    WriteNeedsCurrentView(Enter(w), NextReply(w), view, o);
  }

  /** What an upsert does to the bookkeeping. */
  lemma UpsertStored(w: World, oldest: nat, name: string, payload: Clusters.ClusterPayload, resubmit: bool)
    requires AtRest(w, oldest)
    ensures var (w1, c) := Upsert(w, name, payload, resubmit);
            var makes := MakesCluster(w, name) && StoredId(w) != name;
            && StoredId(w1) == StoredId(w)
            && w1.lost == (if makes && (c.Refused? || resubmit) then w.lost + {name} else w.lost)
            && w1.inFlight == (if makes && c.Accepted? && !resubmit then Some(name) else None)
            && (c.Accepted? ==> name != "")
  {
    hide Enter;
    EnterStored(w, oldest);
  }

  lemma StoreCreatedLosesIff(w: World, view: Object, name: string, res: Resource)
    requires InHistory(w, view) && Inv(w, view.version) && view.status.id == "" && name != ""
    requires w.inFlight in {None, Some(name)}
    ensures var f := StoreCreated(w, view.status, view, name, res, true).0;
            && (StoredId(f) == name ==> name !in f.lost || (name in w.lost && StoredId(w) == name))
            && LosesOnly(w, f, name, w.inFlight.Some? && StoredId(f) != name)
            && (StoredId(f) != name ==> w.lost <= f.lost)
            && (StoredId(w) == name ==> StoredId(f) == name)
  {
    WriteOutcome(w, view.version, CreatedStatus(w.kind, view, name, res));
  }

  lemma CreateLosesIff(w: World, view: Object)
    requires InHistory(w, view) && AtRest(w, view.version)
    requires view.finalizer && view.status.id == "" && view.spec.ClusterSpec?
    ensures var f, name := CreateByName(w, view, view.spec.cluster, true).0, ClusterName(view);
            LosesOnly(w, f, name, MakesCluster(w, name) && StoredId(f) != name)
  {
    NamedView(w, view);
    var name, payload := ClusterName(view), Clusters.Payload(view.spec.cluster);
    assert name == NameOr(view.spec.cluster.name, view.name);
    hide Upsert, Get, StoreCreated, ReportRefused, MakesCluster, ClusterName, Consistent, IsAlreadyExists;
    UpsertKeeps(w, view, name, payload, false);
    UpsertStored(w, view.version, name, payload, false);
    var (w1, created) := Upsert(w, name, payload, false);
    match created
    case Accepted(_, res) => StoreCreatedLosesIff(w1, view, name, res);
    case Refused(e) =>
      if IsAlreadyExists(e) {
        GetKeeps(w1, view.version, name);
        GetStored(w1, view.version, name);
        var (w2, got) := Get(w1, name);
        if got.Shown? {
          StoreCreatedLosesIff(w2, view, name, got.res);
        }
      } else {
        RefusalStored(w1, view, e);
      }
  }

  lemma NamedView(w: World, view: Object)
    requires InHistory(w, view) && Inv(w, view.version)
    ensures view.spec.ClusterSpec? && ClusterName(view) != ""
  {
  }

  lemma ExistingLosesIff(w: World, view: Object)
    requires InHistory(w, view) && AtRest(w, view.version) && view.finalizer && !view.deleting && view.status.id != ""
    requires view.spec.ClusterSpec?
    ensures var f, call := ReconcileExisting(w, view, true).0, UpsertCall(w, view);
            if call.Some? then
              var (v, name) := call.value; LosesOnly(w, f, name, MakesCluster(v, name) && StoredId(f) != name)
            else f.lost <= w.lost
  {
    hide Get, Upsert, Sync, Transitional, Broken, ReadyReason, MakesCluster, Clusters.Drift, Consistent;
    var id := view.status.id;
    GetKeeps(w, view.version, id);
    GetStored(w, view.version, id);
    var (w1, got) := Get(w, id);
    assert !Adopted(view.spec) by { NotAdopted(w, view); }
    match got
    case NotShown(e) =>
      if IsNotFound(e) {
        SyncLosesNothing(w1, view, Forgotten(w.kind, view));
      }
    case Shown(res) =>
      var seen := Observe(view, res);
      if Steady(w.kind, StateOf(res)) && Drift(seen, res).Some? {
        UpsertStored(w1, view.version, id, Drift(seen, res).value.cluster, true);
      } else {
        SyncLosesNothing(w1, view, Verdict(w.kind, seen, res).0);
      }
  }

  lemma NotAdopted(w: World, view: Object)
    requires InHistory(w, view) && OwnedCluster(w)
    ensures !Adopted(view.spec)
  {
  }

  lemma DeleteLosesNothing(w: World, view: Object)
    requires InHistory(w, view) && AtRest(w, view.version) && view.deleting
    ensures ReconcileDelete(w, view, true).0.lost <= w.lost
  {
    hide Get, Discard, Sync, Update, Consistent;
    if view.finalizer {
      UpdateLosesNothing(w, view, view.version);
      if view.status.id != "" {
        GetKeeps(w, view.version, view.status.id);
        GetStored(w, view.version, view.status.id);
        var (w1, got) := Get(w, view.status.id);
        UpdateLosesNothing(w1, view, view.version);
        if got.Shown? {
          var seen := Observe(view, got.res);
          var o := SetReady(seen, false, "Deleting", StateMessage(w.kind, seen.status.state));
          SyncLosesNothing(w1, view, o);
          DiscardKeeps(w1, view.version, view.status.id);
          DiscardLosesNothing(w1, view.version, view.status.id);
          SyncLosesNothing(Discard(w1, view.status.id).0, view, o);
        }
      }
    }
  }

  lemma UpdateLosesNothing(w: World, o: Object, oldest: nat)
    requires Inv(w, oldest)
    ensures Update(w, o.(finalizer := false)).0.lost == w.lost && Update(w, o.(finalizer := true)).0.lost == w.lost
  {
    EnterStored(w, oldest);
  }

  lemma DiscardLosesNothing(w: World, oldest: nat, id: string)
    requires Inv(w, oldest)
    ensures Discard(w, id).0.lost == w.lost
  {
    EnterStored(w, oldest);
  }

  /** Exactly when a name is lost, from any view the cache may return: a reconcile
      loses the name of its upsert iff that makes a cluster and the name is not
      stored in the end; no other name is ever newly lost. */
  lemma ReconcileLosesIff(w: World, view: Object)
    requires InHistory(w, view) && AtRest(w, view.version)
    ensures view.spec.ClusterSpec?
    ensures var f, call := Reconcile(w, view).0, UpsertCall(w, view);
            if call.Some? then
              var (v, name) := call.value; LosesOnly(w, f, name, MakesCluster(v, name) && StoredId(f) != name)
            else f.lost <= w.lost
  {
    NamedView(w, view);
    NotAdopted(w, view);
    hide ReconcileDelete, ReconcileExisting, CreateByName, LosesOnly, MakesCluster, Update, Inv, Transitional, Broken;
    if view.deleting {
      DeleteLosesNothing(w, view);
    } else if !view.finalizer {
      UpdateLosesNothing(w, view, view.version);
    } else if view.status.id == "" {
      CreateLosesIff(w, view);
    } else {
      ExistingLosesIff(w, view);
    }
  }

  /** A calm reconcile, in which nothing moves and nothing fails, loses a name
      exactly if it creates a new cluster from an outdated view: Cluster does
      not re-read the object, and the status write is then refused. */
  predicate CreatesOutdated(w: World, view: Object)
    requires view.spec.ClusterSpec?
  {
    && !view.deleting && view.finalizer && view.status.id == "" && w.obj != Some(view)
    && ClusterName(view) !in w.live && StoredId(w) != ClusterName(view)
    && KindOf(NextReply(w).result) == KCluster
  }

  lemma CalmReconcileLosesIff(w: World, view: Object)
    requires AtRest(w, view.version) && InHistory(w, view) && Calm(w.future)
    ensures view.spec.ClusterSpec?
    ensures var f := Reconcile(w, view).0;
            if CreatesOutdated(w, view) then ClusterName(view) in f.lost && f.lost <= w.lost + {ClusterName(view)}
            else f.lost <= w.lost
  {
    ReconcileLosesIff(w, view);
    NamedView(w, view);
    NotAdopted(w, view);
    hide Steps, ClusterName, Transitional, Broken, Drift;
    if !view.deleting && view.finalizer {
      if view.status.id == "" {
        if KindOf(NextReply(w).result) == KCluster {
          CalmCreateStores(w, view);
        }
        ReconcileIsCreate(w, view);
      } else {
        CalmCorrectionMakesNothing(w, view.status.id);
      }
    }
  }

  predicate Calm(slots: seq<Slot>) {
    |slots| >= 3 && Undisturbed(slots)
  }

  lemma ReconcileIsCreate(w: World, view: Object)
    requires !view.deleting && view.finalizer && view.status.id == "" && !Adopted(view.spec) && view.spec.ClusterSpec?
    ensures Reconcile(w, view).0 == CreateByName(w, view, view.spec.cluster, true).0
  {
    hide CreateByName;
  }

  lemma CalmCreateStores(w: World, view: Object)
    requires AtRest(w, view.version) && InHistory(w, view) && Calm(w.future)
    requires view.status.id == "" && view.spec.ClusterSpec? && KindOf(NextReply(w).result) == KCluster
    ensures var f, name := CreateByName(w, view, view.spec.cluster, true).0, ClusterName(view);
            StoredId(f) == name <==> w.obj == Some(view) || StoredId(w) == name
  {
    hide StoreCreated, Clusters.Payload;
    NamedView(w, view);
    var name := ClusterName(view);
    var (w1, created) := Upsert(w, name, Clusters.Payload(view.spec.cluster), false);
    assert created.Accepted? && w1.obj == w.obj && w1.history == w.history && w1.future == w.future[1..];
    CalmWriteStores(w1, view, name, created.res);
  }

  lemma CalmWriteStores(w: World, view: Object, name: string, res: Resource)
    requires w.future != [] && w.future[0].moves == [] && w.future[0].reply.error.None?
    requires HistoryConsistent(w) && InHistory(w, view) && view.status.id == "" && name != ""
    ensures StoredId(StoreCreated(w, view.status, view, name, res, true).0) == name <==>
              w.obj == Some(view) || StoredId(w) == name
  {
    assert Enter(w) == w.(future := w.future[1..]);
  }

  /** Drift is corrected only for a cluster that was just read. */
  lemma CalmCorrectionMakesNothing(w: World, id: string)
    requires Calm(w.future)
    ensures var (w1, got) := Get(w, id); got.Shown? ==> !MakesCluster(w1, id)
  {
    var w1 := Get(w, id).0;
    assert Enter(w1) == w1.(future := w1.future[1..]);
  }

  /** A run that gets there: a new Cluster gets its finalizer, somebody touches its
      metadata, and a calm reconcile from the version before creates the cluster
      and cannot store its name. */
  lemma OutdatedViewLosesName() returns (w: World, events: seq<Event>)
    ensures Initial(w) && w.kind == KCluster && !Adopted(w.obj.value.spec) && MonotoneViews(events, 0)
    ensures forall i | 0 <= i < |events| && events[i].Reconciled? :: Undisturbed(events[i].script)
    ensures var f := Run(w, events); f.lost == {"c"} && StoredId(f) == ""
  {
    hide Step;
    var spec := ClusterSpec(Clusters.ClusterSpec("", "1.33", [], None, None));
    var status := Status("", "", 0, ClusterMirror("", false, [], [], []), None);
    var o := Object(0, 1, false, false, "c", spec, status);
    w := World(KCluster, Some(o), [o], map[], {}, {}, None, {}, [], {}, {}, []);
    var slot := Slot([], ACCEPTED.(result := Cluster(Clusters.Cluster("1.33", [], None, None))));
    var calm := [slot, slot, slot];
    events := [Reconciled(0, [Slot([], ACCEPTED)]), Outside([EditMetadata]), Reconciled(1, calm)];
    assert MonotoneViews(events, 0) by {
      assert MonotoneViews(events[1..][1..][1..], 1);
      assert MonotoneViews(events[1..][1..], 0);
      assert MonotoneViews(events[1..], 0);
    }
    var w2 := TouchedAfterFinalizer(w, o);
    ThreeSteps(w, events);
    assert Step(Step(w, events[0]), events[1]) == w2;
    CreateFromOutdated(w2, calm);
  }

  lemma TouchedAfterFinalizer(w: World, o: Object) returns (w2: World)
    requires Initial(w) && w.obj == Some(o) && w.kind == KCluster && !Adopted(o.spec) && w.live == map[]
    ensures w2 == Step(Step(w, Reconciled(0, [Slot([], ACCEPTED)])), Outside([EditMetadata]))
    ensures AtRest(w2, 1) && w2.lost == {} && |w2.history| == 3 && StoredId(w2) == ""
    ensures w2.history[1] == o.(version := 1, finalizer := true) && w2.obj == Some(w2.history[2]) && w2.live == map[]
  {
    var v := w.(future := [Slot([], ACCEPTED)]);
    InitialIsAtRest(w);
    assert AtRest(v, 0);
    ReconcileKeeps(v, 0, o);
    FinalizerIsAdded(w, o);
    var w1 := Step(w, Reconciled(0, [Slot([], ACCEPTED)]));
    assert w1.lost == {} && w1.live == map[] by {
      assert Enter(v) == v.(future := []);
    }
    w2 := Moves(w1, [EditMetadata]);
    assert w2 == MoveOnce(w1, EditMetadata) by {
      assert Moves(MoveOnce(w1, EditMetadata), [EditMetadata][1..]) == MoveOnce(w1, EditMetadata);
    }
    MovesDrift(w1, [EditMetadata]);
    DriftKeeps(w1, w2, 0);
    WeakerBound(w2, 0, w2.history[1]);
  }

  lemma CreateFromOutdated(w: World, calm: seq<Slot>)
    requires AtRest(w, 1) && w.lost == {} && |w.history| == 3 && StoredId(w) == "" && w.live == map[]
    requires w.obj == Some(w.history[2])
    requires var view := w.history[1];
             && !view.deleting && view.finalizer && view.status.id == ""
             && view.spec.ClusterSpec? && ClusterName(view) == "c"
    requires Calm(calm) && KindOf(calm[0].reply.result) == KCluster
    ensures var f := Step(w, Reconciled(1, calm)); f.lost == {"c"} && StoredId(f) == ""
  {
    hide Reconcile;
    var v, view := w.(future := calm), w.history[1];
    assert AtRest(v, 1);
    CalmReconcileLosesIff(v, view);
    ReconcileKeeps(v, 1, view);
    ReconcileIsCreate(v, view);
    CalmCreateStores(v, view);
    StoredIsKeptOrAsked(v, view);
  }

  /** A create of an outdated view leaves the stored name as it is. */
  lemma StoredIsKeptOrAsked(w: World, view: Object)
    requires AtRest(w, view.version) && InHistory(w, view) && view.status.id == "" && view.spec.ClusterSpec?
    ensures StoredId(CreateByName(w, view, view.spec.cluster, true).0) in {StoredId(w), ClusterName(view)}
  {
    hide Upsert, Get, StoreCreated, ReportRefused, MakesCluster, Consistent, IsAlreadyExists;
    NamedView(w, view);
    var name, payload := ClusterName(view), Clusters.Payload(view.spec.cluster);
    UpsertKeeps(w, view, name, payload, false);
    UpsertStored(w, view.version, name, payload, false);
    var (w1, created) := Upsert(w, name, payload, false);
    match created
    case Accepted(_, res) => StoreCreatedStores(w1, view, name, res);
    case Refused(e) =>
      GetKeeps(w1, view.version, name);
      GetStored(w1, view.version, name);
      var (w2, got) := Get(w1, name);
      if got.Shown? {
        StoreCreatedStores(w2, view, name, got.res);
      }
      RefusalStored(w1, view, e);
  }

  lemma StoreCreatedStores(w: World, view: Object, name: string, res: Resource)
    requires InHistory(w, view) && Inv(w, view.version) && view.status.id == "" && name != ""
    ensures StoredId(StoreCreated(w, view.status, view, name, res, true).0) in {StoredId(w), name}
  {
    WriteOutcome(w, view.version, CreatedStatus(w.kind, view, name, res));
  }
}
