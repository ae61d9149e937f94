/** When a created resource gets lost: never more than one per reconcile, only
    one made by that reconcile's own create, and none if nothing goes wrong. */
module Losses {
  import opened Common
  import opened Environment
  import opened Lifecycle
  import opened Consistency
  import opened Ownership
  import opened Runs
  import Servers

  lemma SyncLosesNothing(w: World, view: Object, before: Status, o: Object, elide: bool)
    requires AtRest(w) && Derived(w, view, o) && o.status.id in {view.status.id, ""}
    ensures var w1 := Sync(w, before, o, elide).0; w1.lost == w.lost && w1.calls == w.calls
  {
    EnterKeeps(w);
    assert "" !in w.lost && view.status.id !in w.lost;
  }

  lemma ExistingLosesNothing(w: World, view: Object)
    requires AtRest(w) && InHistory(w, view) && view.finalizer && view.status.id != ""
    ensures ReconcileExisting(w, view, true).0.lost == w.lost
  {
    hide Get, Act, Sync, Transitional, Broken, ReadyReason;
    GetKeeps(w, view.status.id);
    var (w1, got) := Get(w, view.status.id);
    assert !Adopted(view.spec);
    match got
    case NotShown(e) =>
      SyncLosesNothing(w1, view, view.status, Forgotten(w.kind, view), true);
    case Shown(res) =>
      var seen := Observe(view, res);
      if Steady(w.kind, StateOf(res)) && Drift(seen, res).Some? {
        ActKeeps(w1, view, Drift(seen, res).value);
      } else {
        SyncLosesNothing(w1, view, view.status, Verdict(w.kind, seen, res).0, true);
      }
  }

  lemma ReportLosesNothing(w: World, view: Object, seen: Object)
    requires AtRest(w) && InHistory(w, view) && seen.version == view.version && seen.status.id == view.status.id
    ensures ReportDeleting(w, view, seen, true).0.lost == w.lost
  {
    var o := SetReady(seen, false, "Deleting", StateMessage(w.kind, seen.status.state));
    SyncLosesNothing(w, view, view.status, o, true);
  }

  lemma RemovalLosesNothing(w: World, view: Object)
    requires AtRest(w)
    ensures RemoveFinalizer(w, view).0.lost == w.lost
  {
    EnterKeeps(w);
  }

  lemma DeleteLosesNothing(w: World, view: Object)
    requires AtRest(w) && InHistory(w, view) && view.deleting
    ensures ReconcileDelete(w, view, true).0.lost == w.lost
  {
    hide Get, Discard, ReportDeleting, RemoveFinalizer;
    if view.finalizer && view.status.id == "" {
      RemovalLosesNothing(w, view);
    } else if view.finalizer {
      GetKeeps(w, view.status.id);
      var (w1, got) := Get(w, view.status.id);
      RemovalLosesNothing(w1, view);
      if got.Shown? {
        var seen := Observe(view, got.res);
        DiscardKeeps(w1, view);
        ReportLosesNothing(w1, view, seen);
        ReportLosesNothing(Discard(w1, view.status.id).0, view, seen);
      }
    }
  }

  // ---- exactly when

  /** A create call about to go out: the world at that moment, the status
      snapshot, the object it is made for and the payload. */
  datatype Moment = Moment(w: World, before: Status, o: Object, payload: CreatePayload)

  /** The create call a reconcile makes, if it makes one. */
  function CreateCall(w: World, view: Object): Option<Moment> {
    if view.deleting || !view.finalizer || view.status.id != "" then None else
    var (w1, reread) := FreshRead(w);
    if !reread.Current? || reread.obj.status.id != "" then None else
    var o := reread.obj;
    match o.spec
    case ServerSpec(spec) =>
      var (w2, r) := Resolve(w1, spec);
      if !r.Resolved? then None
      else Some(Moment(w2, o.status, o, ServerPayload(o, r.imageId, r.networkId, r.bootVolumeId)))
    case VolumeSpec(_) => Some(Moment(w1, view.status, o, VolumePayload(o)))
    case NetworkSpec(_) => Some(Moment(w1, view.status, o, NetworkPayload(o)))
    case ClusterSpec(_) => None
  }

  /** The create makes a resource, whatever the operator is told. */
  predicate TakesEffect(m: Moment) {
    var r := NextReply(m.w);
    IsFree(Enter(m.w), r.newId) && KindOf(r.result) == m.w.kind && (r.error.Some? ==> r.tookEffect)
  }

  /** The create makes a resource, and the operator is not told its ID or its
      status write does not land. */
  predicate Slips(m: Moment) {
    TakesEffect(m) &&
    var (w1, created) := Post(m.w, m.payload);
    created.Refused? || created.id == "" || !Lands(Enter(w1), NextReply(w1), m.o)
  }

  /** From v to w the resource of that ID was lost, which the one create call
      between them made, or nothing; no earlier loss was forgotten. */
  predicate Loses(v: World, w: World, id: string, slips: bool) {
    if slips then id !in v.lost && w.lost == v.lost + {id} && MadeBy(v, w, id) else w.lost == v.lost
  }

  lemma CreateNewLosesIff(m: Moment)
    requires AtRest(m.w) && InHistory(m.w, m.o) && m.o.finalizer && m.o.status.id == "" && m.before.id == ""
    requires Sourced(m.w, m.payload)
    ensures Loses(m.w, CreateNew(m.w, m.before, m.o, m.payload, true).0, NextReply(m.w).newId, Slips(m))
  {
    hide Enter, Inv, Requested;
    PostKeeps(m.w, m.payload);
    PostLoses(m.w, m.payload);
    var (w1, created) := Post(m.w, m.payload);
    match created
    case Refused(e) => SyncLosesNothing(w1, m.o, m.before, SetReady(m.o, false, "CreateFailed", e.text), true);
    case Accepted(id, res) =>
      var o := CreatedStatus(w1.kind, m.o, id, res);
      if id == "" {
        SyncLosesNothing(w1, m.o, m.before, o, true);
      } else {
        WriteLoses(w1, o);
      }
  }

  /** What a create call itself loses, before any status write. */
  lemma PostLoses(w: World, payload: CreatePayload)
    requires AtRest(w)
    ensures var (w1, created) := Post(w, payload);
            var r := NextReply(w);
            var made := IsFree(Enter(w), r.newId) && KindOf(r.result) == w.kind && (r.error.Some? ==> r.tookEffect);
            && w1.lost == (if made && (created.Refused? || created.id == "") then w.lost + {r.newId} else w.lost)
            && (created.Accepted? ==> made)
            && (made ==> r.newId !in w.lost)
  {
    EnterKeeps(w);
    assert Enter(w).lost <= Enter(w).used;
  }

  /** The write of a created ID: it is lost iff the write does not land. */
  lemma WriteLoses(w: World, o: Object)
    requires Inv(w) && w.inFlight == Some(o.status.id)
    ensures var w1 := UpdateStatus(w, o).0;
            && w1.lost == (if Lands(Enter(w), NextReply(w), o) then w.lost else w.lost + {o.status.id})
            && w1.calls == w.calls
  {
    EnterKeeps(w);
    var w1 := Enter(w);
    assert w1.obj.Some? ==> w1.history[|w1.history| - 1].status.id != o.status.id;
  }

  predicate LosesIff(v: World, w: World, call: Option<Moment>) {
    if call.Some? then Loses(v, w, NextReply(call.value.w).newId, Slips(call.value)) else w.lost == v.lost
  }

  lemma CreateLosesIff(w: World, view: Object)
    requires AtRest(w) && InHistory(w, view) && !view.deleting && view.finalizer && view.status.id == ""
    ensures LosesIff(w, CreateAfterReread(w, view, true).0, CreateCall(w, view))
  {
    hide CreateNew, CreateWithRefs, Slips, Resolve, Sync, Enter;
    EnterKeeps(w);
    var (w1, reread) := FreshRead(w);
    if reread.Current? && reread.obj.status.id == "" {
      var o := reread.obj;
      ViewStays(w, w1, view);
      assert o.finalizer by {
        assert view.version == o.version || Follows(w1.history[view.version], w1.history[o.version]);
      }
      match o.spec
      case ServerSpec(spec) => ServerLosesIff(w1, view, o);
      case VolumeSpec(_) => CreateNewLosesIff(Moment(w1, view.status, o, VolumePayload(o)));
      case NetworkSpec(_) => CreateNewLosesIff(Moment(w1, view.status, o, NetworkPayload(o)));
      case ClusterSpec(_) =>
    }
  }

  lemma ServerLosesIff(w: World, view: Object, o: Object)
    requires AtRest(w) && InHistory(w, o) && o.finalizer && o.status.id == "" && o.spec.ServerSpec?
    ensures var (w1, r) := Resolve(w, o.spec.server);
            if r.Resolved? then
              var m := Moment(w1, o.status, o, ServerPayload(o, r.imageId, r.networkId, r.bootVolumeId));
              Loses(w, CreateWithRefs(w, o, true).0, NextReply(w1).newId, Slips(m))
            else CreateWithRefs(w, o, true).0.lost == w.lost
  {
    hide CreateNew, Slips, Resolve, Sync, Inv;
    var spec := o.spec.server;
    ResolveKeeps(w, spec);
    var (w1, r) := Resolve(w, spec);
    assert InHistory(w1, o);
    match r
    case Invalid(e) => SyncLosesNothing(w1, o, o.status, SetReady(o, false, "InvalidReference", e.text), true);
    case NotReady =>
      SyncLosesNothing(w1, o, o.status, SetReady(o, false, "WaitingForReference", WAITING_MESSAGE), true);
    case Resolved(image, network, volume) =>
      ResolvedIsSourced(w1, o, network, volume);
      CreateNewLosesIff(Moment(w1, o.status, o, ServerPayload(o, image, network, volume)));
  }

  /** Exactly when something is lost, from any view, stale or not: a reconcile
      loses the resource its create call makes iff the operator is not told its
      ID or the status write after it does not land; nothing else is ever lost, and
      no earlier loss forgotten. */
  lemma ReconcileLosesIff(w: World, view: Object)
    requires AtRest(w) && InHistory(w, view)
    ensures LosesIff(w, Reconcile(w, view).0, CreateCall(w, view))
  {
    hide ReconcileDelete, CreateAfterReread, ReconcileExisting, Enter, Slips, FreshRead;
    assert !Adopted(view.spec);
    EnterKeeps(w);
    if view.deleting {
      DeleteLosesNothing(w, view);
    } else if view.finalizer {
      if view.status.id == "" {
        CreateLosesIff(w, view);
      } else {
        ExistingLosesNothing(w, view);
      }
    }
  }

  // ---- calm conditions

  /** Nothing moves and no call fails, and every answer carries an ID. */
  predicate Peaceful(slots: seq<Slot>) {
    Undisturbed(slots) && forall i | 0 <= i < |slots| :: slots[i].reply.withId
  }

  /** A script like that, long enough for any reconcile. */
  predicate Calm(slots: seq<Slot>) {
    |slots| >= 6 && Peaceful(slots)
  }

  lemma CalmEnter(w: World)
    requires Peaceful(w.future) && w.future != []
    ensures Enter(w) == w.(future := w.future[1..]) && Peaceful(w.future[1..]) && NextReply(w).error.None?
  {
  }

  lemma CalmResolve(w: World, spec: Servers.ServerSpec)
    requires Peaceful(w.future) && |w.future| >= 4
    ensures var w1 := Resolve(w, spec).0; w1.obj == w.obj && |w1.future| >= 2 && Peaceful(w1.future)
  {
    CalmEnter(w);
    CalmEnter(ResolveNetwork(w, spec).0);
  }

  lemma CalmCallStores(m: Moment)
    requires Peaceful(m.w.future) && |m.w.future| >= 2 && m.w.obj == Some(m.o)
    ensures !Slips(m)
  {
    CalmEnter(m.w);
    var w1 := Post(m.w, m.payload).0;
    assert w1.future == m.w.future[1..] && w1.obj == m.w.obj;
    CalmEnter(w1);
  }

  /** In calm conditions nothing is lost, however stale the view: a loss needs a
      failed call, an answer without an ID, or a change of the object between
      the fresh read and the status write. */
  lemma CalmReconcileLosesNothing(w: World, view: Object)
    requires AtRest(w) && InHistory(w, view) && Calm(w.future)
    ensures Reconcile(w, view).0.lost == w.lost
  {
    hide Reconcile, Resolve, Slips, Enter, AtRest;
    ReconcileLosesIff(w, view);
    CalmEnter(w);
    var (w1, reread) := FreshRead(w);
    if reread.Current? && reread.obj.spec.ServerSpec? {
      CalmResolve(w1, reread.obj.spec.server);
    }
    if CreateCall(w, view).Some? {
      CalmCallStores(CreateCall(w, view).value);
    }
  }

  /** No orphans without a failure, in terms of what the environment did: in every
      run whose reconciles are calm, from arbitrarily stale views and with any
      moves between them, nothing is lost and at most one resource lives. */
  lemma {:induction false} CalmRunsLoseNothing(w: World, events: seq<Event>)
    requires AtRest(w) && w.lost == {}
    requires forall i | 0 <= i < |events| && events[i].Reconciled? :: Calm(events[i].script)
    ensures var f := Run(w, events); f.lost == {} && |f.mine| <= 1 && forall id | id in f.mine :: id == StoredId(f)
    decreases |events|
  {
    hide Reconcile, Moves, Calm;
    if events == [] {
      assert w.mine <= {StoredId(w)};
      SubsetSize(w.mine, {StoredId(w)});
    } else {
      StepKeeps(w, events[0]);
      match events[0] {
        case Reconciled(view, script) =>
          if view < |w.history| {
            CalmReconcileLosesNothing(w.(future := script), w.history[view]);
          }
        case Outside(ms) => MovesDrift(w, ms);
      }
      CalmRunsLoseNothing(Step(w, events[0]), events[1..]);
    }
  }
}
