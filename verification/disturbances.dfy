/** Convergence and deletion when not everything goes well: reconciles may start
    from outdated views of the object, calls may fail or take effect all the same,
    and the resource may vanish. An outdated view costs one reconcile and no call.
    After any fault at all, a bounded number of good reconciles still leads to a
    Ready resource, or to the end of a deleted object, and a fault costs a bounded
    number of calls. */
module Disturbances {
  import opened Common
  import opened StackitErrors
  import opened Environment
  import opened Lifecycle
  import opened Consistency
  import opened Deletion
  import opened Convergence
  import Adoption
  import Clusters
  import Provenance
  import Servers

  // ---- what any reconcile keeps, as long as nobody touches the object

  /** An object the operator owns, deleted or not, with nothing in flight. */
  predicate Held(w: World) {
    && w.obj.Some? && w.inFlight.None?
    && var o := w.obj.value;
       && !Adopted(o.spec) && KindOfSpec(o.spec) == w.kind && o.name != ""
       && (o.status.id != "" ==> o.finalizer)
  }

  /** A version from before any deletion; if it is the stored version, it is what
      is stored. */
  predicate Knows(w: World, view: Object) {
    && w.obj.Some? && view.name == w.obj.value.name && !view.deleting
    && !Adopted(view.spec) && KindOfSpec(view.spec) == w.kind
    && (view.finalizer ==> w.obj.value.finalizer)
    && (view.version == w.obj.value.version ==> view == w.obj.value)
  }

  lemma StoredVersionsAreKnown(w: World, k: nat)
    requires Consistent(w) && Held(w) && k < |w.history|
    ensures (!w.obj.value.deleting || !w.history[k].deleting ==> Knows(w, w.history[k])) && InHistory(w, w.history[k])
  {
    var last := |w.history| - 1;
    assert k < last ==> Follows(w.history[k], w.history[last]);
  }

  /** A call that leaves the object alone. */
  predicate Idle(w: World, w1: World) {
    w1.obj == w.obj && w1.kind == w.kind && QuietScript(w1.future)
  }

  /** No call was issued, or one that is no deletion. */
  predicate AtMostOneCall(w: World, w1: World) {
    w1.calls == w.calls || (OneCall(w, w1) && !w1.calls[|w.calls|].call.Delete?)
  }

  /** The object is still wanted. */
  predicate Kept(w: World, w1: World) {
    && SameWish(w, w1) && w1.inFlight.None?
    && (HasFinalizer(w) ==> HasFinalizer(w1))
    && (Id(w1) != "" ==> HasFinalizer(w1))
  }

  lemma WriteKeeps(w: World, o: Object)
    requires QuietScript(w.future) && HasFinalizer(w)
    ensures var w1 := UpdateStatus(w, o).0; Kept(w, w1) && w1.calls == w.calls && Id(w1) in {Id(w), o.status.id}
  {
    hide Enter;
    QuietEnter(w);
  }

  lemma SyncKeeps(w: World, before: Status, o: Object)
    requires QuietScript(w.future) && HasFinalizer(w)
    requires w.inFlight.Some? ==> before.id != o.status.id
    ensures var w1 := Sync(w, before, o, true).0; Kept(w, w1) && w1.calls == w.calls && Id(w1) in {Id(w), o.status.id}
  {
    QuietEnter(w);
    WriteKeeps(w, o);
  }

  lemma AddFinalizerKeeps(w: World, view: Object)
    requires Held(w) && QuietScript(w.future)
    ensures var w1 := AddFinalizer(w, view).0; Kept(w, w1) && w1.calls == w.calls
  {
    hide Enter;
    QuietEnter(w);
  }

  lemma GetIsIdle(w: World, id: string)
    requires QuietScript(w.future)
    ensures var w1 := Get(w, id).0; Idle(w, w1) && w1.inFlight == w.inFlight && w1.calls == w.calls
  {
    QuietEnter(w);
  }

  lemma PostIsIdle(w: World, payload: CreatePayload)
    requires QuietScript(w.future) && w.inFlight.None?
    ensures var (w1, c) := Post(w, payload);
            && Idle(w, w1) && OneCall(w, w1) && w1.calls[|w.calls|].call.Create?
            && w1.inFlight == (if c.Accepted? && c.id != "" then Some(c.id) else None)
  {
    hide Enter;
    QuietEnter(w);
  }

  lemma UpsertIsIdle(w: World, name: string, payload: Clusters.ClusterPayload, resubmit: bool)
    requires QuietScript(w.future) && w.inFlight.None?
    ensures var (w1, c) := Upsert(w, name, payload, resubmit);
            && Idle(w, w1) && OneCall(w, w1) && !w1.calls[|w.calls|].call.Delete?
            && w1.inFlight in {None, if c.Accepted? && !resubmit then Some(name) else None}
            && (c.Accepted? ==> name != "")
  {
    hide Enter;
    QuietEnter(w);
  }

  lemma ActIsIdle(w: World, id: string, action: Action)
    requires QuietScript(w.future) && w.inFlight.None?
    ensures var w1 := Act(w, id, action).0;
            Idle(w, w1) && OneCall(w, w1) && !w1.calls[|w.calls|].call.Delete? && w1.inFlight.None?
  {
    hide Enter, Upsert;
    QuietEnter(w);
    if action.OnCluster? {
      UpsertIsIdle(w, id, action.cluster, true);
    }
  }

  lemma ReadRefIsIdle(w: World, bootVolume: bool, name: string)
    requires QuietScript(w.future)
    ensures var w1 := ReadRef(w, bootVolume, name).0; Idle(w, w1) && w1.inFlight == w.inFlight && w1.calls == w.calls
  {
    QuietEnter(w);
  }

  lemma ResolveIsIdle(w: World, spec: Servers.ServerSpec)
    requires QuietScript(w.future)
    ensures var w1 := Resolve(w, spec).0; Idle(w, w1) && w1.inFlight == w.inFlight && w1.calls == w.calls
  {
    hide ReadRef, QuietScript;
    if spec.networkRef.Some? {
      ReadRefIsIdle(w, false, spec.networkRef.value);
    }
    if spec.bootVolumeRef.Some? {
      ReadRefIsIdle(ResolveNetwork(w, spec).0, true, spec.bootVolumeRef.value);
    }
  }

  lemma CreateNewKeeps(w: World, before: Status, o: Object, payload: CreatePayload)
    requires QuietScript(w.future) && w.inFlight.None? && w.obj == Some(o) && o.finalizer
    requires o.status.id == "" && before.id == ""
    ensures var w1 := CreateNew(w, before, o, payload, true).0; Kept(w, w1) && AtMostOneCall(w, w1)
  {
    hide Post, Sync, QuietScript;
    PostIsIdle(w, payload);
    var (w1, created) := Post(w, payload);
    match created
    case Refused(e) => SyncKeeps(w1, before, SetReady(o, false, "CreateFailed", e.text));
    case Accepted(id, res) => SyncKeeps(w1, before, CreatedStatus(w1.kind, o, id, res));
  }

  lemma CreateWithRefsKeeps(w: World, o: Object)
    requires QuietScript(w.future) && w.inFlight.None? && w.obj == Some(o) && o.finalizer && o.status.id == ""
    requires o.spec.ServerSpec?
    ensures var w1 := CreateWithRefs(w, o, true).0; Kept(w, w1) && AtMostOneCall(w, w1)
  {
    hide Resolve, CreateNew, Sync, QuietScript;
    ResolveIsIdle(w, o.spec.server);
    var (w1, r) := Resolve(w, o.spec.server);
    match r
    case Invalid(e) => SyncKeeps(w1, o.status, SetReady(o, false, "InvalidReference", e.text));
    case NotReady => SyncKeeps(w1, o.status, SetReady(o, false, "WaitingForReference", WAITING_MESSAGE));
    case Resolved(image, network, volume) =>
      CreateNewKeeps(w1, o.status, o, ServerPayload(o, image, network, volume));
  }

  lemma CreateAfterRereadKeeps(w: World, view: Object)
    requires Held(w) && QuietScript(w.future) && Knows(w, view) && view.finalizer && view.status.id == ""
    ensures var w1 := CreateAfterReread(w, view, true).0; Kept(w, w1) && AtMostOneCall(w, w1)
  {
    hide CreateWithRefs, CreateNew, Enter, QuietScript;
    QuietEnter(w);
    var (w1, reread) := FreshRead(w);
    if reread.Current? && reread.obj.status.id == "" {
      var o := reread.obj;
      match o.spec
      case ServerSpec(_) => CreateWithRefsKeeps(w1, o);
      case VolumeSpec(_) => CreateNewKeeps(w1, view.status, o, VolumePayload(o));
      case NetworkSpec(_) => CreateNewKeeps(w1, view.status, o, NetworkPayload(o));
      case ClusterSpec(_) =>
    }
  }

  lemma CreateByNameKeeps(w: World, view: Object)
    requires Held(w) && QuietScript(w.future) && Knows(w, view) && view.finalizer && view.status.id == ""
    requires view.spec.ClusterSpec?
    ensures var w1 := CreateByName(w, view, view.spec.cluster, true).0; Kept(w, w1) && AtMostOneCall(w, w1)
  {
    hide Upsert, Get, Sync, QuietScript, Clusters.DistinctNames;
    var name, payload := NameOr(view.spec.cluster.name, view.name), Clusters.Payload(view.spec.cluster);
    UpsertIsIdle(w, name, payload, false);
    var (w1, created) := Upsert(w, name, payload, false);
    match created
    case Accepted(_, res) => SyncKeeps(w1, view.status, CreatedStatus(w1.kind, view, name, res));
    case Refused(e) =>
      SyncKeeps(w1, view.status, SetReady(view, false, "CreateFailed", e.text));
      GetIsIdle(w1, name);
      var (w2, got) := Get(w1, name);
      if got.Shown? {
        SyncKeeps(w2, view.status, CreatedStatus(w2.kind, view, name, got.res));
      }
  }

  lemma ExistingKeeps(w: World, view: Object)
    requires Held(w) && QuietScript(w.future) && Knows(w, view) && view.finalizer
    ensures var w1 := ReconcileExisting(w, view, true).0; Kept(w, w1) && AtMostOneCall(w, w1)
  {
    hide Get, Act, Sync, QuietScript, Transitional, Broken, ReadyReason, Drift, MirrorOf, Clusters.DistinctNames;
    GetIsIdle(w, view.status.id);
    var (w1, got) := Get(w, view.status.id);
    match got
    case NotShown(e) => SyncKeeps(w1, view.status, Forgotten(w.kind, view));
    case Shown(res) =>
      var seen := Observe(view, res);
      if Steady(w.kind, StateOf(res)) && Drift(seen, res).Some? {
        ActIsIdle(w1, view.status.id, Drift(seen, res).value);
      } else {
        SyncKeeps(w1, view.status, Verdict(w.kind, seen, res).0);
      }
  }

  /** A reconcile from any known version, whatever fails and takes effect during
      it, leaves an object the operator owns, wanted if it was, and issues at most one
      call. */
  lemma ReconcileKeeps(w: World, view: Object)
    requires Held(w) && QuietScript(w.future) && Knows(w, view)
    ensures var w1 := Reconcile(w, view).0; Held(w1) && Kept(w, w1) && AtMostOneCall(w, w1)
    ensures Wanted(w) ==> Wanted(Reconcile(w, view).0)
  {
    hide CreateAfterReread, CreateByName, ReconcileExisting, AddFinalizer, QuietScript, Clusters.DistinctNames;
    if !view.finalizer {
      AddFinalizerKeeps(w, view);
    } else if view.status.id != "" {
      ExistingKeeps(w, view);
    } else if view.spec.ClusterSpec? {
      CreateByNameKeeps(w, view);
    } else {
      CreateAfterRereadKeeps(w, view);
    }
  }

  // ---- turns

  /** A good turn from the stored version; one from an outdated view; or one in
      which any call may fail, from any view. */
  datatype Disturbed = Good(t: Turn) | Outdated(view: nat, t: Turn) | Faulty(view: nat, t: Turn)

  function After(w: World, d: Disturbed): World {
    match d
    case Good(t) => Again(w, t.script)
    case Outdated(k, t) => FromView(w, k, t.script)
    case Faulty(k, t) => FromView(w, k, t.script)
  }

  /** A reconcile from the k-th version ever stored. */
  function FromView(w: World, k: nat, script: seq<Slot>): World {
    if k < |w.history| then Reconcile(w.(future := script), w.history[k]).0 else w
  }

  function PlayOn(w: World, ds: seq<Disturbed>): World
    decreases |ds|
  {
    if ds == [] then w else PlayOn(After(w, ds[0]), ds[1..])
  }

  /** The view asks for the same and knows the ID; STACKIT behaves as in a good
      turn. Whether the status write goes through is open. */
  ghost predicate SettlesOutdated(w: World, target: Resource, polls: nat, view: Object, t: Turn, patience: nat) {
    w.obj.Some? &&
    var v := w.(future := t.script);
    var o := w.obj.value;
    && view.spec == o.spec && view.status.id == o.status.id && Alive(w) && view.finalizer
    && |t.script| >= 2 && Quiet(t.script[0].moves) && t.script[0].reply.error.None?
    && t.script[1].moves == [] && QuietScript(t.script)
    && var (w1, got) := Get(v, o.status.id);
       && got.Shown? && KindOf(got.res) == w.kind
       && if Transitional(w.kind, StateOf(got.res)) then polls > 0 && t.polls == polls - 1 && t.target == target
          else
            && ShowsTarget(w.kind, o, got.res, target, t, patience)
            && (Drift(o, got.res).Some? ==> NextReply(w1).error.None?)
  }

  /** Nothing moves; how the calls go is open. */
  predicate Motionless(script: seq<Slot>) {
    forall i | 0 <= i < |script| :: script[i].moves == []
  }

  /** An outdated view a reconcile can do nothing from: it lacks the finalizer; or
      it lacks the ID that is stored by now and that the re-read shows; or it has an
      ID of a resource that is gone. */
  predicate Blind(w: World, view: Object) {
    && w.obj.Some? && view != w.obj.value
    && (!view.finalizer
        || (view.status.id == "" && w.kind != KCluster && Id(w) != "")
        || (view.status.id != "" && view.status.id !in w.live))
  }

  /** Nothing comes of a reconcile from such a view, whatever fails meanwhile. */
  lemma BlindViewsDoNothing(w: World, view: Object)
    requires Wanted(w) && Knows(w, view) && Blind(w, view) && Motionless(w.future)
    ensures var w1 := Reconcile(w, view).0; w1 == w.(future := w1.future)
  {
    hide Clusters.DistinctNames, CreateWithRefs, CreateNew, CreateByName, MirrorOf, Enter;
    assert view.version != w.obj.value.version;
    StaysMotionless(w);
    if view.finalizer && view.status.id != "" {
      hide Reconcile;
      ReconcileIsExisting(w, view);
      StaysMotionless(Enter(w));
    } else {
      hide ReconcileExisting;
    }
  }

  lemma StaysMotionless(w: World)
    requires Motionless(w.future)
    ensures var w1 := Enter(w); w1 == w.(future := w1.future) && Motionless(w1.future)
  {
  }

  /** Such a turn changes nothing about where the resource is headed. */
  predicate SeesNothing(w: World, target: Resource, polls: nat, view: Object, t: Turn) {
    Blind(w, view) && Motionless(t.script) && t.target == target && t.polls == polls
  }

  /** In a faulty turn nobody touches the object, and that is all: the resource may
      change in any way or vanish, and be headed anywhere afterwards. */
  ghost predicate Copes(w: World, target: Resource, polls: nat, d: Disturbed, patience: nat) {
    match d
    case Good(t) => Settles(w, target, polls, t, patience)
    case Outdated(k, t) =>
      && k < |w.history|
      && (SettlesOutdated(w, target, polls, w.history[k], t, patience)
          || SeesNothing(w, target, polls, w.history[k], t))
    case Faulty(k, t) => k < |w.history| && QuietScript(t.script) && t.polls <= patience
  }

  ghost predicate AllCope(w: World, target: Resource, polls: nat, ds: seq<Disturbed>, patience: nat)
    decreases |ds|
  {
    ds == [] ||
    (Wanted(w) && Copes(w, target, polls, ds[0], patience) &&
     AllCope(After(w, ds[0]), ds[0].t.target, ds[0].t.polls, ds[1..], patience))
  }

  function Faults(ds: seq<Disturbed>): nat {
    if ds == [] then 0 else (if ds[0].Faulty? then 1 else 0) + Faults(ds[1..])
  }

  function OutdatedViews(ds: seq<Disturbed>): nat {
    if ds == [] then 0 else (if ds[0].Outdated? then 1 else 0) + OutdatedViews(ds[1..])
  }

  /** The highest rank there is. */
  function Full(k: Kind, patience: nat): nat {
    Needed(MaxGroups(k), patience, patience) + 2
  }

  lemma RankIsBounded(w: World, target: Resource, polls: nat, patience: nat)
    requires Wanted(w) && (Alive(w) ==> polls <= patience)
    ensures Rank(w, target, polls, patience) <= Full(w.kind, patience)
  {
    hide Needed, Converged, GroupsOf;
    if Alive(w) {
      NeededGrows(GroupsLeft(w, target), polls, MaxGroups(w.kind), patience);
    }
  }

  /** The calls of a turn and those still left afterwards, compared with those left
      before it; `faults` is 1 for a faulty turn, else 0. */
  predicate CallsAreAccounted(w: World, target: Resource, w1: World, target1: Resource, faults: nat) {
    && Creates(w1.calls) + CreatesLeft(w1) <= Creates(w.calls) + CreatesLeft(w) + 2 * faults
    && Corrections(w1.calls) + CorrectionsLeft(w1, target1) <=
         Corrections(w.calls) + CorrectionsLeft(w, target) + (MaxGroups(w.kind) + 1) * faults
    && Others(w1.calls) == Others(w.calls)
  }

  lemma FaultyTurn(w: World, target: Resource, view: Object, t: Turn, patience: nat)
    requires Wanted(w) && w.future == t.script && Knows(w, view) && QuietScript(t.script) && t.polls <= patience
    ensures var w1 := Reconcile(w, view).0;
            && Wanted(w1) && w1.kind == w.kind && CallsAreAccounted(w, target, w1, t.target, 1)
            && Rank(w1, t.target, t.polls, patience) <= Full(w.kind, patience)
  {
    hide Reconcile, Needed, GroupsOf, Converged, Creates, Corrections, QuietScript;
    ReconcileKeeps(w, view);
    var w1 := Reconcile(w, view).0;
    RankIsBounded(w1, t.target, t.polls, patience);
    if OneCall(w, w1) {
      OneCallCounts(w, w1);
    }
  }

  lemma DriftDependsOnWish(o: Object, p: Object, res: Resource)
    requires p.spec == o.spec && p.name == o.name
    ensures Drift(p, res) == Drift(o, res)
  {
  }

  /** The read of a reconcile from an outdated view. */
  lemma ShowsOutdated(w: World, target: Resource, polls: nat, view: Object, t: Turn, patience: nat)
    requires Wanted(w) && w.future == t.script && SettlesOutdated(w, target, polls, view, t, patience)
    ensures var (o, (w1, got)) := (w.obj.value, Get(w, Id(w)));
            && Alive(w) && view.spec == o.spec && view.status.id == Id(w) && view.finalizer
            && w1 == w.(live := w1.live, mine := w1.mine, seen := w1.seen, future := w.future[1..])
            && QuietScript(w1.future) && w1.future != [] && w1.future[0].moves == []
            && got.Shown? && KindOf(got.res) == w.kind && Id(w) in w1.live && w1.live[Id(w)] == got.res
            && if Transitional(w.kind, StateOf(got.res)) then polls > 0 && t.polls == polls - 1 && t.target == target
               else ShowsTarget(w.kind, o, got.res, target, t, patience)
  {
    hide Transitional, ShowsTarget, StateOf, Enter, QuietScript, Quiet, Drift;
    QuietEnter(w);
    FirstPasses(w);
  }

  /** Like Convergence.Watching, from an outdated view: while the resource is
      transitional it is waited for, drift is answered by one call, and a match
      changes nothing that was converged. */
  lemma WatchingOutdated(w: World, target: Resource, polls: nat, view: Object, t: Turn, patience: nat)
    requires Wanted(w) && w.future == t.script && Knows(w, view) && SettlesOutdated(w, target, polls, view, t, patience)
    ensures var w1 := Reconcile(w, view).0;
            && Wanted(w1) && SameWish(w, w1) && Id(w1) == Id(w) && HasFinalizer(w1) && Alive(w1)
            && ((polls > 0 && t.polls == polls - 1 && t.target == target && w1.calls == w.calls)
                || (t.polls <= patience && GroupsLeft(w, t.target) < GroupsLeft(w, target)
                    && OneCall(w, w1) && w1.calls[|w.calls|].call.Correct?)
                || (t.polls == 0 && GroupsLeft(w, t.target) == 0 && w1.calls == w.calls
                    && (Converged(w) ==> Converged(w1))))
  {
    var o := w.obj.value;
    hide Transitional, Broken, ReadyReason, Drift, MirrorOf, Clusters.DistinctNames;
    hide Reconcile, Act, Sync, Get, CarriedOut, GroupsOf, QuietScript, StateOf, SettlesOutdated;
    ShowsOutdated(w, target, polls, view, t, patience);
    ReconcileIsExisting(w, view);
    var (w1, got) := Get(w, Id(w));
    var seen := Observe(view, got.res);
    DriftDependsOnWish(o, seen, got.res);
    CallLowersGroups(o, got.res, t.target);
    if Steady(w.kind, StateOf(got.res)) && Drift(seen, got.res).Some? {
      ActGoesThrough(w1, Drift(seen, got.res).value);
    } else {
      var reported := Verdict(w.kind, seen, got.res).0;
      SyncKeeps(w1, view.status, reported);
      ReportOutcome(w1, view, reported);
      GroupsDependOnWish(w, Reconcile(w, view).0, got.res);
    }
  }

  /** What is left of the script after the first call. */
  lemma FirstPasses(w: World)
    requires |w.future| >= 2
    ensures Enter(w).future == w.future[1..]
  {
    Adoption.MovesKeepFuture(w.(future := w.future[1..]), w.future[0].moves);
  }

  lemma ActGoesThrough(w: World, a: Action)
    requires w.future != [] && w.future[0].moves == [] && w.obj.Some? && Id(w) != "" && w.inFlight.None?
    ensures var w1 := Act(w, Id(w), a).0;
            && w1.obj == w.obj && w1.kind == w.kind && w1.inFlight.None?
            && OneCall(w, w1) && w1.calls[|w.calls|].call.Correct?
            && (Alive(w) ==> Alive(w1))
  {
    assert Enter(w) == w.(future := w.future[1..]);
  }

  /** A verdict is stored over the version it is based on, or not at all. */
  lemma ReportOutcome(w: World, view: Object, o: Object)
    requires w.future != [] && w.future[0].moves == []
    requires Knows(w, view) && o.version == view.version && w.inFlight.None?
    ensures var w1 := Sync(w, view.status, o, true).0;
            && w1.live == w.live
            && (w1.obj == w.obj
                || (w.obj == Some(view) && w1.obj == Some(view.(version := |w.history|, status := o.status))))
  {
    assert Enter(w) == w.(future := w.future[1..]);
  }

  /** A turn from an outdated view never raises the rank. */
  lemma OutdatedTurn(w: World, target: Resource, polls: nat, view: Object, t: Turn, patience: nat)
    requires Wanted(w) && w.future == t.script && Knows(w, view) && SettlesOutdated(w, target, polls, view, t, patience)
    ensures var w1 := Reconcile(w, view).0;
            && Wanted(w1) && w1.kind == w.kind && CallsAreAccounted(w, target, w1, t.target, 0)
            && Rank(w1, t.target, t.polls, patience) <= Rank(w, target, polls, patience)
  {
    hide Reconcile, GroupsOf, SettlesOutdated, Converged, Needed, Creates, Corrections;
    assert Alive(w) && HasFinalizer(w) by { SettlesOutdatedKnowsId(w, target, polls, view, t, patience); }
    WatchingOutdated(w, target, polls, view, t, patience);
    var w1 := Reconcile(w, view).0;
    GroupsDependOnWish(w, w1, t.target);
    if OneCall(w, w1) {
      OneCallCounts(w, w1);
    }
    var before, after := GroupsLeft(w, target), GroupsLeft(w, t.target);
    NeededAtTheEnd(patience);
    if (after == before && t.polls < polls) || (after < before && t.polls <= patience) {
      NeededDrops(before, polls, after, t.polls, patience);
    }
  }

  lemma SettlesOutdatedKnowsId(w: World, target: Resource, polls: nat, view: Object, t: Turn, patience: nat)
    requires Wanted(w) && SettlesOutdated(w, target, polls, view, t, patience)
    ensures Alive(w) && HasFinalizer(w)
  {
  }

  lemma OutdatedIgnoresFuture(w: World, v: World, target: Resource, polls: nat, view: Object, t: Turn, patience: nat)
    requires Wanted(w) && v == w.(future := v.future) && SettlesOutdated(w, target, polls, view, t, patience)
    ensures Wanted(v) && SettlesOutdated(v, target, polls, view, t, patience)
  {
  }

  lemma NeededAtTheEnd(patience: nat)
    ensures Needed(0, 0, patience) == 1
  {
  }

  /** One turn of any sort. */
  lemma AnyTurn(w: World, target: Resource, polls: nat, d: Disturbed, patience: nat)
    requires Wanted(w) && Provenance.Sound(w) && Copes(w, target, polls, d, patience)
    ensures var w1, r := After(w, d), Rank(w, target, polls, patience);
            && Wanted(w1) && Provenance.Sound(w1) && w1.kind == w.kind
            && CallsAreAccounted(w, target, w1, d.t.target, if d.Faulty? then 1 else 0)
            && var r1 := Rank(w1, d.t.target, d.t.polls, patience);
               match d
               case Good(_) => (if r == 0 then r1 == 0 else r1 < r)
               case Outdated(_, _) => r1 <= r
               case Faulty(_, _) => r1 <= Full(w.kind, patience)
  {
    hide Reconcile, Settles, SettlesOutdated, Rank, GroupsOf, Creates, Corrections, QuietScript, Provenance.Sound;
    TurnKeepsSound(w, target, polls, d, patience);
    var v := w.(future := d.t.script);
    RankIgnoresFuture(w, v, target, polls, patience);
    match d
    case Good(t) =>
      OneTurn(w, target, polls, t, patience);
    case Outdated(k, t) =>
      if SeesNothing(w, target, polls, v.history[k], t) {
        BlindViewsDoNothing(v, v.history[k]);
        RankIgnoresFuture(w, After(w, d), target, polls, patience);
      } else {
        OutdatedIgnoresFuture(w, v, target, polls, v.history[k], t, patience);
        OutdatedTurn(v, target, polls, v.history[k], t, patience);
      }
    case Faulty(k, t) =>
      FaultyTurn(v, target, v.history[k], t, patience);
  }

  lemma TurnKeepsSound(w: World, target: Resource, polls: nat, d: Disturbed, patience: nat)
    requires Wanted(w) && Provenance.Sound(w) && Copes(w, target, polls, d, patience)
    ensures Provenance.Sound(After(w, d)) && (!d.Good? ==> Knows(w, w.history[d.view]))
  {
    hide Reconcile, Settles, SettlesOutdated, Clusters.DistinctNames, Provenance.JustifiedStatus, QuietScript;
    hide Provenance.Writes;
    var v := w.(future := d.t.script);
    Provenance.CloudCallKeeps(w, v);
    var k := if d.Good? then |w.history| - 1 else d.view;
    StoredVersionsAreKnown(w, k);
    assert d.Good? ==> v.obj.value == v.history[k] by {
      assert w.obj.Some?;
    }
    Provenance.ReconcileKeeps(v, v.history[k]);
  }

  // ---- runs

  /** Convergence with outdated views: without faults, as many reconciles as the
      rank of the start, and one more for each outdated view, lead to a Ready
      resource that matches its spec. Outdated views cost no call: drift is found
      by a live read. Each fault costs at most two creates and one more round of
      corrective calls. */
  lemma {:induction false} ConvergesFromAnyViews(
      w: World, target: Resource, polls: nat, ds: seq<Disturbed>, patience: nat)
    requires Wanted(w) && Provenance.Sound(w) && AllCope(w, target, polls, ds, patience)
    ensures var f := PlayOn(w, ds);
            && (Faults(ds) == 0 && |ds| >= Rank(w, target, polls, patience) + OutdatedViews(ds) ==> Converged(f))
            && Creates(f.calls) <= Creates(w.calls) + CreatesLeft(w) + 2 * Faults(ds)
            && Corrections(f.calls) <=
                 Corrections(w.calls) + CorrectionsLeft(w, target) + (MaxGroups(w.kind) + 1) * Faults(ds)
            && Others(f.calls) == Others(w.calls)
    decreases |ds|
  {
    hide After, Copes, GroupsOf, Needed, Creates, Corrections, Converged, Provenance.Sound;
    if ds == [] {
      RankZeroIsConverged(w, target, polls, patience);
    } else {
      var d, w1 := ds[0], After(w, ds[0]);
      AnyTurn(w, target, polls, d, patience);
      ConvergesFromAnyViews(w1, d.t.target, d.t.polls, ds[1..], patience);
      FewerThanAll(ds[1..]);
    }
  }

  lemma RankZeroIsConverged(w: World, target: Resource, polls: nat, patience: nat)
    requires Wanted(w)
    ensures Rank(w, target, polls, patience) == 0 ==> Converged(w)
  {
    hide Converged, GroupsOf, Needed;
  }

  lemma {:induction false} FewerThanAll(ds: seq<Disturbed>)
    ensures OutdatedViews(ds) <= |ds|
  {
    if ds != [] {
      FewerThanAll(ds[1..]);
    }
  }

  /** Convergence after faults: whatever happened before, once no more faults occur
      a number of reconciles that depends on the kind and the patience alone, and
      one more for each outdated view, lead to a Ready resource. */
  lemma {:induction false} ConvergesAfterFaults(
      w: World, target: Resource, polls: nat, before: seq<Disturbed>, after: seq<Disturbed>, patience: nat)
    requires Wanted(w) && Provenance.Sound(w) && (Alive(w) ==> polls <= patience)
    requires AllCope(w, target, polls, before + after, patience)
    requires Faults(after) == 0 && |after| >= Full(w.kind, patience) + OutdatedViews(after)
    ensures Converged(PlayOn(w, before + after))
    decreases |before|
  {
    hide After, GroupsOf, Needed, Converged, Provenance.Sound, ShowsTarget, CreateAccepted, Smooth, Full;
    if before == [] {
      assert before + after == after;
      RankIsBounded(w, target, polls, patience);
      ConvergesFromAnyViews(w, target, polls, after, patience);
    } else {
      var d, w1 := before[0], After(w, before[0]);
      assert (before + after)[1..] == before[1..] + after;
      AnyTurn(w, target, polls, d, patience);
      PollsStayBounded(w, target, polls, d, patience);
      ConvergesAfterFaults(w1, d.t.target, d.t.polls, before[1..], after, patience);
    }
  }

  lemma PollsStayBounded(w: World, target: Resource, polls: nat, d: Disturbed, patience: nat)
    requires Wanted(w) && (Alive(w) ==> polls <= patience) && Copes(w, target, polls, d, patience)
    requires Provenance.Sound(w)
    ensures Alive(After(w, d)) ==> d.t.polls <= patience
  {
    hide Now, Reconcile, Provenance.JustifiedStatus, HistoryConsistent, CloudConsistent;
    if d.Outdated? && SeesNothing(w, target, polls, w.history[d.view], d.t) {
      StoredVersionsAreKnown(w, d.view);
      BlindViewsDoNothing(w.(future := d.t.script), w.history[d.view]);
    } else if d.Good? {
      var v := w.(future := d.t.script);
      if !HasFinalizer(w) {
        AddingFinalizer(v);
      } else if Id(w) != "" && !Alive(w) {
        FindingItGone(v);
      }
    }
  }

  // ---- deletion

  /** A reconcile from any version ever stored, under any script. */
  datatype Attempt = Attempt(view: nat, script: seq<Slot>)

  /** Reconciles from any views, until the object is gone. */
  function AfterAttempts(w: World, attempts: seq<Attempt>): World
    decreases |attempts|
  {
    if attempts == [] || w.obj.None? then w
    else AfterAttempts(FromView(w, attempts[0].view, attempts[0].script), attempts[1..])
  }

  /** Nobody touches the object. */
  predicate Untouched(attempts: seq<Attempt>) {
    forall i | 0 <= i < |attempts| :: QuietScript(attempts[i].script)
  }

  /** The ID in the last version stored. */
  function LastId(w: World): string {
    if w.history == [] then "" else w.history[|w.history| - 1].status.id
  }

  /** The object is still being deleted, or gone after its resource. */
  predicate OnItsWay(w: World) {
    if w.obj.None? then LastId(w) !in w.live else Held(w) && Deleting(w, Id(w))
  }

  /** The view is the stored version or an outdated one. */
  predicate ViewOf(w: World, view: Object) {
    && w.obj.Some? && LastId(w) == Id(w)
    && (view.version == w.obj.value.version ==> view == w.obj.value)
  }

  lemma RemovalKeeps(w: World, view: Object)
    requires OnItsWay(w) && QuietScript(w.future) && ViewOf(w, view) && view.status.id !in w.live
    ensures OnItsWay(RemoveFinalizer(w, view).0)
  {
    hide Enter;
    QuietEnter(w);
  }

  lemma ReportKeeps(w: World, view: Object, seen: Object)
    requires OnItsWay(w) && QuietScript(w.future) && w.obj.Some?
    ensures OnItsWay(ReportDeleting(w, view, seen, true).0)
  {
    hide Sync, QuietScript;
    SyncKeeps(w, view.status, SetReady(seen, false, "Deleting", StateMessage(w.kind, seen.status.state)));
  }

  /** A reconcile that sees the deletion, from however old a view. */
  lemma DeletingViewKeeps(w: World, view: Object)
    requires OnItsWay(w) && QuietScript(w.future) && ViewOf(w, view) && view.deleting && "" !in w.live
    ensures OnItsWay(Reconcile(w, view).0)
  {
    hide RemoveFinalizer, ReportDeleting, Discard, Enter, QuietScript, MirrorOf;
    var id := view.status.id;
    if view.finalizer {
      if id == "" {
        RemovalKeeps(w, view);
      } else {
        GetIsQuiet(w, id);
        var (w1, got) := Get(w, id);
        match got
        case NotShown(e) =>
          if IsNotFound(e) {
            RemovalKeeps(w1, view);
          }
        case Shown(res) =>
          var seen := Observe(view, res);
          ReportKeeps(w1, view, seen);
          DiscardIsQuiet(w1, id);
          ReportKeeps(Discard(w1, id).0, view, seen);
      }
    }
  }

  /** One reconcile of a deleted object, whatever version it sees and whatever
      fails: it may even make a resource, but it loses neither the deletion request
      nor the finalizer of a resource. */
  lemma AttemptKeeps(w: World, k: nat, script: seq<Slot>)
    requires OnItsWay(w) && Provenance.Sound(w) && w.obj.Some? && QuietScript(script)
    ensures var w1 := FromView(w, k, script); OnItsWay(w1) && Provenance.Sound(w1)
  {
    hide Reconcile, QuietScript, Provenance.JustifiedStatus, Provenance.Writes;
    if k < |w.history| {
      var v, view := w.(future := script), w.history[k];
      Provenance.CloudCallKeeps(w, v);
      StoredVersionsAreKnown(v, k);
      Provenance.ReconcileKeeps(v, view);
      if view.deleting {
        DeletingViewKeeps(v, view);
      } else {
        ReconcileKeeps(v, view);
      }
    }
  }

  lemma {:induction false} AttemptsKeep(w: World, attempts: seq<Attempt>)
    requires OnItsWay(w) && Provenance.Sound(w) && Untouched(attempts)
    ensures var v := AfterAttempts(w, attempts); OnItsWay(v) && Provenance.Sound(v)
    decreases |attempts|
  {
    hide FromView, OnItsWay, Provenance.Sound, QuietScript;
    if attempts != [] && w.obj.Some? {
      AttemptKeeps(w, attempts[0].view, attempts[0].script);
      AttemptsKeep(FromView(w, attempts[0].view, attempts[0].script), attempts[1..]);
    }
  }

  /** Deletion after faults: however many reconciles of a deleted object started
      from outdated views or failed anywhere, the object is not gone before its
      resource; and once STACKIT obliges, it goes within the bound of
      `DeletionTerminates`, counted from there. */
  lemma DeletionTerminatesAfterFaults(w: World, attempts: seq<Attempt>, b: Budget, scripts: seq<seq<Slot>>)
    requires Held(w) && Deleting(w, Id(w)) && Provenance.Sound(w) && Untouched(attempts)
    ensures var v := AfterAttempts(w, attempts);
            if v.obj.None? then LastId(v) !in v.live
            else
              && Deleting(v, Id(v))
              && (Fair(v, Id(v), b, scripts) ==>
                    var f := DeletionRun(v, scripts);
                    && (|scripts| > RoundsLeft(b) ==> f.obj.None?)
                    && (f.obj.None? ==> Id(v) !in f.live)
                    && (f.obj.Some? ==> Deleting(f, Id(v))))
  {
    hide AfterAttempts, Provenance.JustifiedStatus, HistoryConsistent;
    AttemptsKeep(w, attempts);
    var v := AfterAttempts(w, attempts);
    if v.obj.Some? && Fair(v, Id(v), b, scripts) {
      DeletionTerminates(v, Id(v), b, scripts);
    }
  }
}
