/** Adopted objects (spec.existingId, spec.existingClusterName): the operator
    only looks. That deletion never touches the resource rests on the missing
    finalizer, since reconcileDelete does not ask about adoption. */
module Adoption {
  import opened Environment
  import opened Lifecycle
  import opened Consistency
  import opened Runs
  import Convergence

  predicate OnlyObserved(w: World) {
    && Consistent(w) && Adopted(w.history[0].spec)
    && (forall k | 0 <= k < |w.history| :: !w.history[k].finalizer)
    && w.mine == {} && w.lost == {} && w.inFlight.None? && w.calls == []
  }

  predicate InitialAdopted(w: World) {
    Initial(w) && Adopted(w.obj.value.spec)
  }

  /** Both worlds show the same STACKIT resources. */
  predicate SameCloud(v: World, w: World) {
    v.kind == w.kind && v.live == w.live && v.used == w.used
  }

  /** What the environment does to STACKIT does not depend on the object. */
  lemma {:induction false} MovesOnSameCloud(v: World, w: World, ms: seq<Move>)
    requires SameCloud(v, w)
    ensures SameCloud(Moves(v, ms), Moves(w, ms))
    decreases |ms|
  {
    if ms != [] {
      MovesOnSameCloud(MoveOnce(v, ms[0]), MoveOnce(w, ms[0]), ms[1..]);
    }
  }

  lemma {:induction false} MovesInTwoParts(w: World, a: seq<Move>, b: seq<Move>)
    ensures Moves(w, a + b) == Moves(Moves(w, a), b)
    decreases |a|
  {
    if a == [] {
      assert a + b == b;
    } else {
      assert (a + b)[1..] == a[1..] + b;
      MovesInTwoParts(MoveOnce(w, a[0]), a[1..], b);
    }
  }

  /** The moves of the given slots, one after another. */
  function Flat(slots: seq<Slot>): (ms: seq<Move>)
    decreases |slots|
  {
    if slots == [] then [] else slots[0].moves + Flat(slots[1..])
  }

  lemma {:induction false} FlatConcat(a: seq<Slot>, b: seq<Slot>)
    ensures Flat(a + b) == Flat(a) + Flat(b)
    decreases |a|
  {
    if a == [] {
      assert a + b == b;
    } else {
      assert (a + b)[1..] == a[1..] + b;
      FlatConcat(a[1..], b);
    }
  }

  /** The slots of v's script that have been used up in w. */
  function Passed(v: World, w: World): seq<Slot> {
    v.future[..if |w.future| <= |v.future| then |v.future| - |w.future| else 0]
  }

  /** From v to w part of the script was used up, and STACKIT looks as if the
      moves of that part were all that happened. */
  predicate OnlyTheScript(v: World, w: World) {
    && |w.future| <= |v.future| && v.future == Passed(v, w) + w.future
    && SameCloud(w, Moves(v, Flat(Passed(v, w))))
  }

  lemma OnlyTheScriptComposes(u: World, v: World, w: World)
    requires OnlyTheScript(u, v) && OnlyTheScript(v, w)
    ensures OnlyTheScript(u, w)
  {
    var first, second := Passed(u, v), Passed(v, w);
    assert Passed(u, w) == first + second;
    FlatConcat(first, second);
    MovesInTwoParts(u, Flat(first), Flat(second));
    MovesOnSameCloud(v, Moves(u, Flat(first)), Flat(second));
  }

  lemma {:induction false} MovesKeepFuture(w: World, ms: seq<Move>)
    ensures Moves(w, ms).future == w.future
    decreases |ms|
  {
    if ms != [] {
      MovesKeepFuture(MoveOnce(w, ms[0]), ms[1..]);
    }
  }

  lemma EnterIsScripted(w: World)
    ensures OnlyTheScript(w, Enter(w)) && |w.future| <= |Enter(w).future| + 1
  {
    if w.future != [] {
      var ms := w.future[0].moves;
      MovesKeepFuture(w.(future := w.future[1..]), ms);
      MovesOnSameCloud(w.(future := w.future[1..]), w, ms);
      assert Passed(w, Enter(w)) == [w.future[0]];
      assert Flat([w.future[0]]) == ms;
    }
  }

  /** A step in which the operator only observes: at most `calls` slots pass. */
  predicate Observes(v: World, w: World, calls: nat) {
    OnlyObserved(w) && OnlyTheScript(v, w) && |v.future| <= |w.future| + calls
  }

  lemma EnterKeeps(w: World)
    requires OnlyObserved(w)
    ensures Observes(w, Enter(w), 1) && Drifts(w, Enter(w))
  {
    EnterDrifts(w);
    DriftKeeps(w, Enter(w));
    EnterIsScripted(w);
  }

  /** Users cannot set the operator's finalizer; it was never there. */
  lemma DriftKeeps(w: World, w1: World)
    requires OnlyObserved(w) && Consistent(w1) && Drifts(w, w1)
    ensures OnlyObserved(w1)
  {
  }

  lemma UpdateStatusKeeps(w: World, view: Object, o: Object)
    requires OnlyObserved(w) && InHistory(w, view) && o.version == view.version
    ensures Observes(w, UpdateStatus(w, o).0, 1)
  {
    hide Enter, Moves, Flat;
    EnterKeeps(w);
    var w1 := Enter(w);
    var r := NextReply(w);
    if Lands(w1, r, o) {
      WriteNeedsCurrentView(w1, r, view, o);
      StoreConsistent(w1, view.(status := o.status));
      assert view == w1.history[|w1.history| - 1];
      var w2 := Store(w1, view.(status := o.status));
      assert w2.history[0] == w1.history[0];
    }
  }

  lemma SyncKeeps(w: World, view: Object, before: Status, o: Object)
    requires OnlyObserved(w) && InHistory(w, view) && o.version == view.version
    ensures Observes(w, Sync(w, before, o, true).0, 1)
  {
    EnterKeeps(w);
    UpdateStatusKeeps(w, view, o);
  }

  lemma Look(w: World, view: Object, id: string)
    requires OnlyObserved(w) && InHistory(w, view)
    ensures var w1 := Get(w, id).0; Observes(w, w1, 1) && InHistory(w1, view)
  {
    EnterKeeps(w);
  }

  /** A read followed by a status write. */
  lemma LookAndReport(w: World, view: Object, id: string, o: Object)
    requires OnlyObserved(w) && InHistory(w, view) && o.version == view.version
    ensures Observes(w, Sync(Get(w, id).0, view.status, o, true).0, 2)
  {
    hide Get, Sync, OnlyObserved, SameCloud;
    Look(w, view, id);
    var w1 := Get(w, id).0;
    SyncKeeps(w1, view, view.status, o);
    OnlyTheScriptComposes(w, w1, Sync(w1, view.status, o, true).0);
  }

  lemma AdoptOnlyObserves(w: World, view: Object, id: string)
    requires OnlyObserved(w) && InHistory(w, view)
    ensures Observes(w, Adopt(w, view, id, true).0, 2)
  {
    hide Get, Sync, OnlyObserved, OnlyTheScript;
    Look(w, view, id);
    LookAndReport(w, view, id, SetReady(view, false, "NotFound", NotFoundMessage(w.kind)));
    var got := Get(w, id).1;
    if got.Shown? {
      LookAndReport(w, view, id, Observe(WithId(view, id), got.res));
    }
  }

  lemma ViewIsAdopted(w: World, view: Object)
    requires OnlyObserved(w) && InHistory(w, view)
    ensures Adopted(view.spec) && !view.finalizer
  {
  }

  lemma ExistingOnlyObserves(w: World, view: Object)
    requires OnlyObserved(w) && InHistory(w, view)
    ensures Observes(w, ReconcileExisting(w, view, true).0, 2)
  {
    hide Get, Sync, Transitional, Broken, ReadyReason, MirrorOf, StateOf, Drift, OnlyObserved, OnlyTheScript, InHistory;
    ViewIsAdopted(w, view);
    var id := view.status.id;
    Look(w, view, id);
    LookAndReport(w, view, id, SetReady(view, false, "NotFound", NotFoundMessage(w.kind)));
    var got := Get(w, id).1;
    if got.Shown? {
      LookAndReport(w, view, id, Verdict(w.kind, Observe(view, got.res), got.res).0);
    }
  }

  /** A reconcile of an adopted object issues no mutating call and adds no
      finalizer; it takes one read and one status write at most, and STACKIT
      looks afterwards as the environment's own moves meanwhile make it look. */
  lemma ReconcileOnlyObserves(w: World, view: Object)
    requires OnlyObserved(w) && InHistory(w, view)
    ensures Observes(w, Reconcile(w, view).0, 2)
  {
    hide Adopt, ReconcileExisting, OnlyTheScript, OnlyObserved;
    ViewIsAdopted(w, view);
    if view.deleting {
      NothingPasses(w);
    } else if view.status.id == "" {
      AdoptOnlyObserves(w, view, Existing(view.spec).value);
    } else {
      ExistingOnlyObserves(w, view);
    }
  }

  lemma NothingPasses(w: World)
    ensures OnlyTheScript(w, w)
  {
    assert Passed(w, w) == [];
  }

  /** What the environment does on its own during one event of a run. */
  function OwnMoves(w: World, e: Event): seq<Move> {
    match e
    case Reconciled(view, script) =>
      if view < |w.history| then Flat(Passed(w.(future := script), Step(w, e))) else []
    case Outside(ms) => ms
  }

  /** What it does during a whole run. */
  function AllOwnMoves(w: World, events: seq<Event>): seq<Move>
    decreases |events|
  {
    if events == [] then [] else OwnMoves(w, events[0]) + AllOwnMoves(Step(w, events[0]), events[1..])
  }

  lemma StepOnlyObserves(w: World, e: Event)
    requires OnlyObserved(w)
    ensures OnlyObserved(Step(w, e)) && SameCloud(Step(w, e), Moves(w, OwnMoves(w, e)))
  {
    hide Reconcile;
    match e
    case Reconciled(view, script) =>
      if view < |w.history| {
        var v := w.(future := script);
        ReconcileOnlyObserves(v, v.history[view]);
        MovesOnSameCloud(v, w, OwnMoves(w, e));
      }
    case Outside(moves) =>
      MovesDrift(w, moves);
      DriftKeeps(w, Moves(w, moves));
  }

  /** In every run, deletion included, the operator issues no mutating call, no
      version of the object ever carries its finalizer, and STACKIT ends up as
      the environment's moves alone, in their order, make it from the start. */
  lemma {:induction false} AdoptedRunsOnlyObserve(w: World, events: seq<Event>)
    requires OnlyObserved(w)
    ensures var f := Run(w, events);
            && OnlyObserved(f) && f.calls == []
            && (forall k | 0 <= k < |f.history| :: !f.history[k].finalizer)
            && SameCloud(f, Moves(w, AllOwnMoves(w, events)))
    decreases |events|
  {
    hide Step, OwnMoves;
    if events != [] {
      var w1, first := Step(w, events[0]), OwnMoves(w, events[0]);
      var rest := AllOwnMoves(w1, events[1..]);
      StepOnlyObserves(w, events[0]);
      AdoptedRunsOnlyObserve(w1, events[1..]);
      MovesInTwoParts(w, first, rest);
      MovesOnSameCloud(w1, Moves(w, first), rest);
    }
  }

  /** The run theorem applies to every newly adopted object. */
  lemma InitialIsOnlyObserved(w: World)
    requires InitialAdopted(w)
    ensures OnlyObserved(w)
  {
  }

  // ---- what a reconcile of an adopted object says

  /** The status after a reconcile that reads and writes without failure: the
      first read only notes ID and mirror, the later ones give a verdict, drift or
      not. */
  function Reported(w: World, o: Object): (Status, Result)
    requires Adopted(o.spec)
  {
    var id := if o.status.id == "" then Existing(o.spec).value else o.status.id;
    var got := Get(w, id).1;
    if got.NotShown? then (SetReady(o, false, "NotFound", NotFoundMessage(w.kind)).status, After(ERROR_INTERVAL))
    else if o.status.id == "" then (Observe(WithId(o, id), got.res).status, Requeue)
    else
      var (o', result) := Verdict(w.kind, Observe(o, got.res), got.res);
      (o'.status, result)
  }

  /** A reconcile of a stored, adopted object in which no call fails. */
  lemma AdoptedReport(w: World)
    requires OnlyObserved(w) && w.obj.Some? && !w.obj.value.deleting && Convergence.Smooth(w.future)
    ensures Adopted(w.obj.value.spec)
    ensures var o := w.obj.value;
            var ((status, result), (w1, r)) := (Reported(w, o), Reconcile(w, o));
            && r == result && w1.obj.Some?
            && w1.obj.value == o.(version := w1.obj.value.version, status := status)
  {
    hide Sync, Enter, Transitional, Broken, ReadyReason, MirrorOf, StateOf;
    hide Drift, CreateAfterReread, CreateByName, ReconcileDelete, AddFinalizer, Convergence.Smooth, Consistent;
    var o := w.obj.value;
    assert InHistory(w, o) && w.inFlight.None? by {
      StillOnlyObserved(w, w.future);
    }
    ViewIsAdopted(w, o);
    Convergence.SmoothTail(w.future);
    Convergence.FirstEnter(w);
    var id := if o.status.id == "" then Existing(o.spec).value else o.status.id;
    var p := o.(status := Reported(w, o).0);
    Convergence.WriteGoesThrough(Get(w, id).0, o.status, p);
  }

  /** Adoption takes two reconciles: the first that finds the resource stores its
      ID, the second what it thinks of the resource, which is Ready iff it was read
      in one of the Ready states; its drift does not matter. */
  lemma AdoptsInTwoReconciles(w: World, first: seq<Slot>, second: seq<Slot>)
    requires OnlyObserved(w) && w.obj.Some? && !w.obj.value.deleting && w.obj.value.status.id == ""
    requires Convergence.Smooth(first) && Convergence.Smooth(second)
    requires Adopted(w.obj.value.spec) && Get(w.(future := first), Existing(w.obj.value.spec).value).1.Shown?
    ensures var id, v := Existing(w.obj.value.spec).value, w.(future := first);
            var (w1, r1) := Reconcile(v, v.obj.value);
            && w1.obj.Some? && r1 == Requeue && w1.obj.value.status.id == id
            && var v1 := w1.(future := second);
               var (w2, r2) := Reconcile(v1, v1.obj.value);
               var got := Get(v1, id).1;
               && w2.obj.Some? && w2.calls == [] && w2.obj.value.status.id == id
               && var s := w2.obj.value.status;
                  && s.condition.Some? && s.condition.value.generation == w.obj.value.generation
                  && (s.condition.value.ready <==>
                        got.Shown? && Steady(w.kind, StateOf(got.res)) && ReadyReason(w.kind, StateOf(got.res)).Some?)
                  && (got.Shown? ==> s.state == StateOf(got.res) && s.mirror == MirrorOf(s.mirror, got.res))
                  && (got.Shown? && Steady(w.kind, StateOf(got.res)) ==> r2 == After(RESYNC_PERIOD))
                  && (got.NotShown? ==> r2 == After(ERROR_INTERVAL))
  {
    hide Reconcile, Convergence.Smooth, Steady, ReadyReason, MirrorOf, Verdict, Get, OnlyTheScript;
    var v := w.(future := first);
    StillOnlyObserved(w, first);
    AdoptedReport(v);
    ReconcileOnlyObserves(v, v.obj.value);
    var w1 := Reconcile(v, v.obj.value).0;
    var v1 := w1.(future := second);
    StillOnlyObserved(w1, second);
    AdoptedReport(v1);
    ReconcileOnlyObserves(v1, v1.obj.value);
    var got := Get(v1, w1.obj.value.status.id).1;
    if got.Shown? {
      VerdictSays(w.kind, w1.obj.value, got.res);
    }
  }

  lemma VerdictSays(k: Kind, o: Object, res: Resource)
    ensures var (p, r) := Verdict(k, Observe(o, res), res);
            var s := p.status;
            && s.id == o.status.id && s.condition.Some? && s.condition.value.generation == o.generation
            && (s.condition.value.ready <==> Steady(k, StateOf(res)) && ReadyReason(k, StateOf(res)).Some?)
            && s.state == StateOf(res) && s.mirror == MirrorOf(s.mirror, res)
            && (Steady(k, StateOf(res)) ==> r == After(RESYNC_PERIOD))
  {
    hide Transitional, Broken, ReadyReason;
  }

  lemma StillOnlyObserved(w: World, script: seq<Slot>)
    requires OnlyObserved(w)
    ensures OnlyObserved(w.(future := script))
    ensures w.obj.Some? ==> InHistory(w, w.obj.value)
  {
  }
}
