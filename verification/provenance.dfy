/** Where a Ready condition comes from. */
module Provenance {
  import opened Common
  import opened StackitErrors
  import opened Environment
  import opened Lifecycle
  import opened Consistency
  import opened Runs
  import Clusters

  /** The resource justifies a Ready status: it was read under the ID, all the
      status shows is what it showed, its state is the Ready state of that
      reason, and, if it is owned, it showed no drift against the version `spec`,
      which is of the condition's and the status's generation. */
  predicate Justifies(w: World, s: Status, c: Condition, res: Resource, spec: Object) {
    && (s.id, res) in w.seen
    && s.state == StateOf(res) && s.mirror == MirrorOf(s.mirror, res)
    && Steady(w.kind, s.state) && ReadyReason(w.kind, s.state) == Some(c.reason)
    && c.message == StateMessage(w.kind, s.state) && s.generation == c.generation == spec.generation
    && (!Adopted(spec.spec) ==> Drift(spec, res).None?)
  }

  ghost predicate JustifiedStatus(w: World, s: Status) {
    IsReady(s) ==>
      exists res, k: nat :: k < |w.history| && Justifies(w, s, s.condition.value, res, w.history[k])
  }

  ghost predicate Sound(w: World) {
    && Consistent(w)
    && (forall id, res | (id, res) in w.seen :: id != "" && KindOf(res) == w.kind)
    && (forall k | 0 <= k < |w.history| :: JustifiedStatus(w, w.history[k].status))
  }

  predicate IsReady(s: Status) {
    s.condition.Some? && s.condition.value.ready
  }

  function Statuses(w: World): set<Status> {
    set k | 0 <= k < |w.history| :: w.history[k].status
  }

  /** From v to w the reads of v are kept, and the only Ready status newly stored
      is `written`, if any. */
  predicate Writes(v: World, w: World, written: Option<Status>) {
    && w.kind == v.kind && v.seen <= w.seen
    && |v.history| <= |w.history|
    && (forall k | 0 <= k < |v.history| :: w.history[k] == v.history[k])
    && (forall k | |v.history| <= k < |w.history| ::
          var s := w.history[k].status; IsReady(s) ==> s in Statuses(v) || written == Some(s))
  }

  /** Between two worlds soundness is kept and no Ready status is newly stored. */
  ghost predicate SoundAfter(v: World, w: World) {
    Sound(w) && Writes(v, w, None)
  }

  function ReadyOf(o: Object): Option<Status> {
    if IsReady(o.status) then Some(o.status) else None
  }

  lemma WritesCompose(u: World, v: World, w: World, written: Option<Status>)
    requires Writes(u, v, None) && Writes(v, w, written)
    ensures Writes(u, w, written)
  {
    forall k | |u.history| <= k < |w.history| && IsReady(w.history[k].status)
      ensures w.history[k].status in Statuses(u) || written == Some(w.history[k].status)
    {
      var s := w.history[k].status;
      if k < |v.history| {
        assert w.history[k] == v.history[k];
      } else if s in Statuses(v) {
        var j :| 0 <= j < |v.history| && v.history[j].status == s;
        assert j < |u.history| ==> u.history[j].status == s;
      }
    }
  }

  lemma StaysJustified(v: World, w: World, s: Status, written: Option<Status>)
    requires Writes(v, w, written) && JustifiedStatus(v, s)
    ensures JustifiedStatus(w, s)
  {
    if IsReady(s) {
      var res, k: nat :| k < |v.history| && Justifies(v, s, s.condition.value, res, v.history[k]);
      assert Justifies(w, s, s.condition.value, res, w.history[k]);
    }
  }

  /** Soundness carries over to a world with no new status and with new reads of
      the right kind. */
  lemma KeepsSound(v: World, w: World)
    requires Sound(v) && Consistent(w) && w.kind == v.kind && v.seen <= w.seen && |v.history| <= |w.history|
    requires forall k | 0 <= k < |v.history| :: w.history[k] == v.history[k]
    requires forall k | |v.history| <= k < |w.history| :: w.history[k].status in Statuses(v)
    requires forall id, res | (id, res) in w.seen && (id, res) !in v.seen :: id != "" && KindOf(res) == w.kind
    ensures SoundAfter(v, w)
  {
    hide JustifiedStatus;
    forall k | 0 <= k < |w.history|
      ensures JustifiedStatus(w, w.history[k].status)
    {
      var s := w.history[k].status;
      assert s in Statuses(v) by {
        assert k < |v.history| ==> v.history[k].status == s;
      }
      var j :| 0 <= j < |v.history| && v.history[j].status == s;
      StaysJustified(v, w, s, None);
    }
  }

  lemma DriftKeeps(v: World, w: World)
    requires Sound(v) && Consistent(w) && Drifts(v, w)
    ensures SoundAfter(v, w)
  {
    hide JustifiedStatus;
    forall k | |v.history| <= k < |w.history|
      ensures w.history[k].status in Statuses(v)
    {
      assert v.history[|v.history| - 1].status == w.history[k].status;
    }
    KeepsSound(v, w);
  }

  lemma EnterKeeps(w: World)
    requires Sound(w)
    ensures SoundAfter(w, Enter(w)) && Drifts(w, Enter(w))
  {
    hide JustifiedStatus;
    EnterDrifts(w);
    DriftKeeps(w, Enter(w));
  }

  // ---- single calls

  /** The environment's moves, and then a change that stores no new status. */
  lemma EntersAndKeeps(w: World, w1: World)
    requires Sound(w) && SoundAfter(Enter(w), w1)
    ensures SoundAfter(w, w1)
  {
    hide Sound, Enter;
    EnterKeeps(w);
    WritesCompose(w, Enter(w), w1, None);
  }

  lemma UpdateKeeps(w: World, view: Object, finalizer: bool)
    requires Sound(w) && InHistory(w, view) && (!finalizer ==> view.deleting)
    ensures SoundAfter(w, Update(w, view.(finalizer := finalizer)).0)
  {
    hide Enter, JustifiedStatus;
    EnterKeeps(w);
    var w1, w2, o := Enter(w), Update(w, view.(finalizer := finalizer)).0, view.(finalizer := finalizer);
    if Lands(w1, NextReply(w), o) {
      WriteNeedsCurrentView(w1, NextReply(w), view, o);
      assert view == w1.history[|w1.history| - 1];
      if finalizer {
        StoreConsistent(w1, o);
        assert w2.history[|w1.history|].status == w1.history[|w1.history| - 1].status;
      }
      KeepsSound(w1, w2);
    }
    EntersAndKeeps(w, w2);
  }

  lemma StoreStatusKeeps(w: World, view: Object, o: Object)
    requires Sound(w) && w.obj == Some(view) && JustifiedStatus(w, o.status)
    ensures var w1 := Store(w, view.(status := o.status));
            var w2 := w1.(inFlight := None, lost := w1.lost - {o.status.id});
            Sound(w2) && Writes(w, w2, ReadyOf(o))
  {
    hide JustifiedStatus;
    StoreConsistent(w, view.(status := o.status));
    var w1 := Store(w, view.(status := o.status));
    var w2 := w1.(inFlight := None, lost := w1.lost - {o.status.id});
    StaysJustified(w, w2, o.status, ReadyOf(o));
    forall k | 0 <= k < |w.history|
      ensures JustifiedStatus(w2, w2.history[k].status)
    {
      StaysJustified(w, w2, w.history[k].status, ReadyOf(o));
    }
  }

  lemma UpdateStatusKeeps(w: World, view: Object, o: Object)
    requires Sound(w) && InHistory(w, view) && o.version == view.version && JustifiedStatus(w, o.status)
    ensures var w1 := UpdateStatus(w, o).0; Sound(w1) && Writes(w, w1, ReadyOf(o))
  {
    hide Enter, JustifiedStatus;
    EnterKeeps(w);
    var w1, w2 := Enter(w), UpdateStatus(w, o).0;
    if Lands(w1, NextReply(w), o) {
      WriteNeedsCurrentView(w1, NextReply(w), view, o);
      StaysJustified(w, w1, o.status, None);
      StoreStatusKeeps(w1, view, o);
    } else {
      KeepsSound(w1, LoseInFlight(w1));
    }
    WritesCompose(w, w1, w2, ReadyOf(o));
  }

  /** A status write after other calls, which stored no new Ready status. */
  lemma SyncKeeps(u: World, w: World, view: Object, before: Status, o: Object)
    requires SoundAfter(u, w) && InHistory(w, view) && o.version == view.version && JustifiedStatus(w, o.status)
    ensures var w1 := Sync(w, before, o, true).0; Sound(w1) && Writes(u, w1, ReadyOf(o))
  {
    hide Enter, JustifiedStatus, Consistent;
    EnterKeeps(w);
    UpdateStatusKeeps(w, view, o);
    WritesCompose(u, w, Sync(w, before, o, true).0, ReadyOf(o));
  }

  lemma GetKeeps(w: World, id: string)
    requires Sound(w)
    ensures var (w1, got) := Get(w, id);
            SoundAfter(w, w1) && (got.Shown? ==> (id, got.res) in w1.seen && id != "")
  {
    hide Enter, JustifiedStatus;
    EnterKeeps(w);
    KeepsSound(Enter(w), Get(w, id).0);
    EntersAndKeeps(w, Get(w, id).0);
  }

  /** Calls that write nothing to the API server. */
  lemma CloudCallKeeps(v: World, w: World)
    requires Sound(v) && CloudConsistent(w) && w.kind == v.kind
    requires w.history == v.history && w.obj == v.obj && w.seen == v.seen
    ensures SoundAfter(v, w)
  {
    hide JustifiedStatus;
    KeepsSound(v, w);
  }

  lemma PostKeeps(w: World, payload: CreatePayload)
    requires Sound(w)
    ensures SoundAfter(w, Post(w, payload).0)
  {
    hide Enter, JustifiedStatus;
    EnterKeeps(w);
    CloudCallKeeps(Enter(w), Post(w, payload).0);
    EntersAndKeeps(w, Post(w, payload).0);
  }

  lemma UpsertKeeps(w: World, name: string, payload: Clusters.ClusterPayload, resubmit: bool)
    requires Sound(w)
    ensures SoundAfter(w, Upsert(w, name, payload, resubmit).0)
  {
    hide Enter, JustifiedStatus;
    EnterKeeps(w);
    var r := NextReply(w);
    var w1 := Record(Enter(w), if resubmit then Correct(OnCluster(payload)) else Create(UpsertCluster(payload)), name);
    if name != "" && KindOf(r.result) == w1.kind {
      PutConsistent(w1, name, r.result, r.error.None? && !resubmit);
      PutConsistent(w1, name, r.result, false);
    }
    CloudCallKeeps(Enter(w), Upsert(w, name, payload, resubmit).0);
    EntersAndKeeps(w, Upsert(w, name, payload, resubmit).0);
  }

  lemma ActKeeps(w: World, id: string, action: Action)
    requires Sound(w)
    ensures SoundAfter(w, Act(w, id, action).0)
  {
    hide Enter, Upsert, JustifiedStatus;
    if action.OnCluster? {
      UpsertKeeps(w, id, action.cluster, true);
    } else {
      EnterKeeps(w);
      CloudCallKeeps(Enter(w), Act(w, id, action).0);
      EntersAndKeeps(w, Act(w, id, action).0);
    }
  }

  lemma DiscardKeeps(w: World, id: string)
    requires Sound(w)
    ensures SoundAfter(w, Discard(w, id).0)
  {
    hide Enter, JustifiedStatus;
    EnterKeeps(w);
    CloudCallKeeps(Enter(w), Discard(w, id).0);
    EntersAndKeeps(w, Discard(w, id).0);
  }

  lemma ReadRefKeeps(w: World, bootVolume: bool, name: string)
    requires Sound(w)
    ensures SoundAfter(w, ReadRef(w, bootVolume, name).0)
  {
    hide Enter, JustifiedStatus;
    EnterKeeps(w);
    CloudCallKeeps(Enter(w), ReadRef(w, bootVolume, name).0);
    EntersAndKeeps(w, ReadRef(w, bootVolume, name).0);
  }

  lemma NothingHappened(w: World)
    requires Sound(w)
    ensures SoundAfter(w, w)
  {
  }

  lemma ResolveKeeps(w: World, o: Object)
    requires Sound(w) && o.spec.ServerSpec?
    ensures SoundAfter(w, Resolve(w, o.spec.server).0)
  {
    hide Sound, ReadRef, Writes;
    NothingHappened(w);
    var spec := o.spec.server;
    if spec.networkRef.Some? {
      ReadRefKeeps(w, false, spec.networkRef.value);
    }
    var w1 := ResolveNetwork(w, spec).0;
    if spec.bootVolumeRef.Some? {
      ReadRefKeeps(w1, true, spec.bootVolumeRef.value);
      WritesCompose(w, w1, ReadRef(w1, true, spec.bootVolumeRef.value).0, None);
    }
  }

  // ---- whole reconciles

  lemma CreateNewKeeps(u: World, w: World, before: Status, view: Object, payload: CreatePayload)
    requires SoundAfter(u, w) && InHistory(w, view)
    ensures SoundAfter(u, CreateNew(w, before, view, payload, true).0)
  {
    hide Post, Sync, Consistent;
    PostKeeps(w, payload);
    var (w1, created) := Post(w, payload);
    WritesCompose(u, w, w1, None);
    match created
    case Refused(e) => SyncKeeps(u, w1, view, before, SetReady(view, false, "CreateFailed", e.text));
    case Accepted(id, res) => SyncKeeps(u, w1, view, before, CreatedStatus(w1.kind, view, id, res));
  }

  lemma CreateWithRefsKeeps(u: World, w: World, view: Object)
    requires SoundAfter(u, w) && InHistory(w, view) && view.spec.ServerSpec?
    ensures SoundAfter(u, CreateWithRefs(w, view, true).0)
  {
    hide Sound, Resolve, Sync, CreateNew;
    ResolveKeeps(w, view);
    var (w1, r) := Resolve(w, view.spec.server);
    WritesCompose(u, w, w1, None);
    match r
    case Invalid(e) => SyncKeeps(u, w1, view, view.status, SetReady(view, false, "InvalidReference", e.text));
    case NotReady =>
      SyncKeeps(u, w1, view, view.status, SetReady(view, false, "WaitingForReference", WAITING_MESSAGE));
    case Resolved(image, network, volume) =>
      CreateNewKeeps(u, w1, view.status, view, ServerPayload(view, image, network, volume));
  }

  lemma CreateAfterRereadKeeps(w: World, view: Object)
    requires Sound(w) && InHistory(w, view)
    ensures SoundAfter(w, CreateAfterReread(w, view, true).0)
  {
    hide Enter, JustifiedStatus, CreateWithRefs, CreateNew;
    EnterKeeps(w);
    var (w1, reread) := FreshRead(w);
    if reread.Current? && reread.obj.status.id == "" {
      var o := reread.obj;
      assert InHistory(w1, o);
      match o.spec
      case ServerSpec(spec) => CreateWithRefsKeeps(w, w1, o);
      case VolumeSpec(spec) => CreateNewKeeps(w, w1, view.status, o, VolumePayload(o));
      case NetworkSpec(spec) => CreateNewKeeps(w, w1, view.status, o, NetworkPayload(o));
      case ClusterSpec(spec) =>
    }
  }

  lemma CreateByNameKeeps(w: World, view: Object)
    requires Sound(w) && InHistory(w, view) && view.spec.ClusterSpec?
    ensures SoundAfter(w, CreateByName(w, view, view.spec.cluster, true).0)
  {
    hide Upsert, Get, Sync, Consistent;
    var name, payload := NameOr(view.spec.cluster.name, view.name), Clusters.Payload(view.spec.cluster);
    UpsertKeeps(w, name, payload, false);
    var (w1, created) := Upsert(w, name, payload, false);
    match created
    case Accepted(_, res) => SyncKeeps(w, w1, view, view.status, CreatedStatus(w1.kind, view, name, res));
    case Refused(e) =>
      if IsAlreadyExists(e) {
        GetKeeps(w1, name);
        var (w2, got) := Get(w1, name);
        WritesCompose(w, w1, w2, None);
        if got.Shown? {
          SyncKeeps(w, w2, view, view.status, CreatedStatus(w2.kind, view, name, got.res));
        }
      } else {
        SyncKeeps(w, w1, view, view.status, SetReady(view, false, "CreateFailed", e.text));
      }
  }

  /** Adoption keeps the condition, but a status without an ID is never Ready. */
  lemma AdoptKeeps(w: World, view: Object, id: string)
    requires Sound(w) && InHistory(w, view) && view.status.id == ""
    ensures SoundAfter(w, Adopt(w, view, id, true).0)
  {
    assert !IsReady(view.status) by {
      assert JustifiedStatus(w, view.status);
    }
    hide Get, Sync, Consistent;
    GetKeeps(w, id);
    var (w1, got) := Get(w, id);
    match got
    case NotShown(e) =>
      SyncKeeps(w, w1, view, view.status, SetReady(view, false, "NotFound", NotFoundMessage(w.kind)));
    case Shown(res) => SyncKeeps(w, w1, view, view.status, Observe(WithId(view, id), res));
  }

  /** The status a reconcile of an existing resource writes, if it is Ready: the
      verdict on what it has just read, in a Ready state and, if the object is
      owned, without drift from the view's spec. */
  function OwnVerdict(w: World, view: Object): Option<Status> {
    var got := Get(w, view.status.id).1;
    if got.NotShown? || !Steady(w.kind, StateOf(got.res)) then None
    else if !Adopted(view.spec) && Drift(view, got.res).Some? then None
    else
      var o := Verdict(w.kind, Observe(view, got.res), got.res).0;
      if IsReady(o.status) then Some(o.status) else None
  }

  lemma ExistingKeeps(w: World, view: Object)
    requires Sound(w) && InHistory(w, view)
    ensures var w1 := ReconcileExisting(w, view, true).0; Sound(w1) && Writes(w, w1, OwnVerdict(w, view))
  {
    hide Get, Act, Sync, Transitional, Broken, ReadyReason, Drift, Consistent;
    GetKeeps(w, view.status.id);
    var (w1, got) := Get(w, view.status.id);
    match got
    case NotShown(e) =>
      SyncKeeps(w, w1, view, view.status, SetReady(view, false, "NotFound", NotFoundMessage(w.kind)));
      SyncKeeps(w, w1, view, view.status, Forgotten(w.kind, view));
    case Shown(res) =>
      var seen := Observe(view, res);
      DriftIgnoresStatus(view, seen, res);
      if Steady(w.kind, StateOf(res)) && !Adopted(view.spec) && Drift(seen, res).Some? {
        ActKeeps(w1, view.status.id, Drift(seen, res).value);
        WritesCompose(w, w1, Act(w1, view.status.id, Drift(seen, res).value).0, None);
      } else {
        VerdictIsJustified(w1, view, res);
        SyncKeeps(w, w1, view, view.status, Verdict(w.kind, seen, res).0);
      }
  }

  lemma DriftIgnoresStatus(o: Object, p: Object, res: Resource)
    requires p == o.(status := p.status)
    ensures Drift(p, res) == Drift(o, res)
  {
  }

  /** The only place where Ready becomes true. */
  lemma VerdictIsJustified(w: World, view: Object, res: Resource)
    requires Sound(w) && InHistory(w, view) && (view.status.id, res) in w.seen
    requires !(Steady(w.kind, StateOf(res)) && !Adopted(view.spec) && Drift(Observe(view, res), res).Some?)
    ensures JustifiedStatus(w, Verdict(w.kind, Observe(view, res), res).0.status)
  {
    var s := Verdict(w.kind, Observe(view, res), res).0.status;
    if s.condition.value.ready {
      assert Drift(Observe(view, res), res) == Drift(view, res);
      assert Justifies(w, s, s.condition.value, res, w.history[view.version]);
    }
  }

  lemma DeleteKeeps(w: World, view: Object)
    requires Sound(w) && InHistory(w, view) && view.deleting
    ensures SoundAfter(w, ReconcileDelete(w, view, true).0)
  {
    hide Get, Discard, Sync, Update, Consistent;
    NothingHappened(w);
    if view.status.id == "" {
      UpdateKeeps(w, view, false);
    } else {
      GetKeeps(w, view.status.id);
      var (w1, got) := Get(w, view.status.id);
      UpdateKeeps(w1, view, false);
      WritesCompose(w, w1, Update(w1, view.(finalizer := false)).0, None);
      if got.Shown? {
        var seen := Observe(view, got.res);
        var o := SetReady(seen, false, "Deleting", StateMessage(w.kind, seen.status.state));
        SyncKeeps(w, w1, view, view.status, o);
        DiscardKeeps(w1, view.status.id);
        var w2 := Discard(w1, view.status.id).0;
        WritesCompose(w, w1, w2, None);
        SyncKeeps(w, w2, view, view.status, o);
      }
    }
  }

  /** What a reconcile may newly store as Ready. */
  function MayWrite(w: World, view: Object): Option<Status> {
    if view.deleting || view.status.id == "" then None else OwnVerdict(w, view)
  }

  /** No reconcile writes or keeps an unjustified Ready; and every Ready status it
      newly stores, from any view and under any script, is its verdict on the
      resource it has itself read. */
  lemma ReconcileKeeps(w: World, view: Object)
    requires Sound(w) && InHistory(w, view)
    ensures var w1 := Reconcile(w, view).0; Sound(w1) && Writes(w, w1, MayWrite(w, view))
  {
    hide ReconcileDelete, ReconcileExisting, CreateAfterReread, CreateByName, Adopt;
    hide OwnVerdict, Consistent, JustifiedStatus;
    if view.deleting {
      DeleteKeeps(w, view);
    } else if !Adopted(view.spec) && !view.finalizer {
      UpdateKeeps(w, view, true);
    } else if view.status.id == "" {
      if Adopted(view.spec) {
        AdoptKeeps(w, view, Existing(view.spec).value);
      } else if view.spec.ClusterSpec? {
        CreateByNameKeeps(w, view);
      } else {
        CreateAfterRereadKeeps(w, view);
      }
    } else {
      ExistingKeeps(w, view);
    }
  }

  lemma {:induction false} RunKeeps(w: World, events: seq<Event>)
    requires Sound(w)
    ensures Sound(Run(w, events))
    decreases |events|
  {
    hide Reconcile, Moves, JustifiedStatus;
    if events != [] {
      match events[0] {
        case Reconciled(view, script) =>
          if view < |w.history| {
            var v := w.(future := script);
            CloudCallKeeps(w, v);
            ReconcileKeeps(v, v.history[view]);
          }
        case Outside(ms) =>
          MovesDrift(w, ms);
          DriftKeeps(w, Moves(w, ms));
      }
      RunKeeps(Step(w, events[0]), events[1..]);
    }
  }

  /** Ready provenance, for all four kinds, owned and adopted: in every run, a
      stored Ready=True of generation g goes back to a resource that was read
      under the stored ID in a Ready state and, if owned, matched the spec of
      generation g. */
  lemma ReadyIsNeverMadeUp(w: World, events: seq<Event>)
    requires Initial(w)
    ensures var f := Run(w, events);
            f.obj.Some? && f.obj.value.status.condition.Some? && f.obj.value.status.condition.value.ready ==>
              exists res, k: nat :: k < |f.history| &&
                Justifies(f, f.obj.value.status, f.obj.value.status.condition.value, res, f.history[k])
  {
    hide Step;
    RunKeeps(w, events);
    var f := Run(w, events);
    if f.obj.Some? {
      assert JustifiedStatus(f, f.history[|f.history| - 1].status);
    }
  }
}
