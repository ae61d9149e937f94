/** Whole runs: reconciles from arbitrary cached views, one after another, with
    arbitrary moves of the environment between and during them. */
module Runs {
  import opened Common
  import opened Environment
  import opened Lifecycle
  import opened Consistency
  import opened Ownership

  /** A reconcile from the given cached version, with its script, or moves of
      the environment while no reconcile is under way. A cache that does not
      have the version yet answers not-found, and nothing happens. */
  datatype Event = Reconciled(view: nat, script: seq<Slot>) | Outside(moves: seq<Move>)

  function Step(w: World, e: Event): World {
    match e
    case Reconciled(view, script) =>
      if view < |w.history| then Reconcile(w.(future := script), w.history[view]).0 else w
    case Outside(ms) => Moves(w, ms)
  }

  function Run(w: World, events: seq<Event>): World
    decreases |events|
  {
    if events == [] then w else Run(Step(w, events[0]), events[1..])
  }

  /** A new object of a kind STACKIT numbers, to be created by the operator. */
  predicate InitialOwned(w: World) {
    Initial(w) && w.kind != KCluster && !Adopted(w.obj.value.spec)
  }

  lemma StepKeeps(w: World, e: Event)
    requires AtRest(w)
    ensures AtRest(Step(w, e))
  {
    hide Reconcile, Moves;
    match e
    case Reconciled(view, script) =>
      if view < |w.history| {
        var v := w.(future := script);
        assert AtRest(v);
        ReconcileKeeps(v, v.history[view]);
      }
    case Outside(ms) =>
      MovesDrift(w, ms);
      DriftKeeps(w, Moves(w, ms));
  }

  lemma {:induction false} RunKeeps(w: World, events: seq<Event>)
    requires AtRest(w)
    ensures AtRest(Run(w, events))
    decreases |events|
  {
    hide Step, AtRest;
    if events != [] {
      StepKeeps(w, events[0]);
      RunKeeps(Step(w, events[0]), events[1..]);
    }
  }

  lemma InitialIsAtRest(w: World)
    requires InitialOwned(w)
    ensures AtRest(w)
  {
  }

  /** Orphan accounting: in every run each live resource the operator made is
      the stored one or is accounted as lost; without a loss there is at most
      one. */
  lemma NoUnaccountedOrphans(w: World, events: seq<Event>)
    requires InitialOwned(w)
    ensures var f := Run(w, events);
            && (forall id | id in f.mine :: id == StoredId(f) || id in f.lost)
            && (f.lost == {} ==> |f.mine| <= 1)
  {
    hide Step;
    InitialIsAtRest(w);
    RunKeeps(w, events);
    var f := Run(w, events);
    if f.lost == {} {
      assert f.mine <= {StoredId(f)};
      SubsetSize(f.mine, {StoredId(f)});
    }
  }

  lemma SubsetSize<T>(a: set<T>, b: set<T>)
    requires a <= b
    ensures |a| <= |b|
  {
    assert |b - a| == |b| - |a|;
  }

  /** Finalizer safety: once the object has left the API server, no resource it
      ever recorded is live, and what the operator made is lost or gone. While
      a recorded resource lives, the object is there and holds the finalizer. */
  lemma ObjectOutlivesItsResources(w: World, events: seq<Event>)
    requires InitialOwned(w)
    ensures var f := Run(w, events);
            && (f.obj.None? ==> f.mine <= f.lost)
            && (forall k | 0 <= k < |f.history| ::
                  var id := f.history[k].status.id;
                  id != "" && id in f.live ==> f.obj.Some? && f.obj.value.status.id == id && f.obj.value.finalizer)
  {
    hide Step;
    InitialIsAtRest(w);
    RunKeeps(w, events);
  }

  /** Stale-view safety: every update, resize, start, stop and delete of a run
      was aimed at the stored resource or at one already gone; and every server
      was created with a network and a boot source. */
  lemma EveryCallIsSafe(w: World, events: seq<Event>)
    requires InitialOwned(w)
    ensures var f := Run(w, events);
            forall i | 0 <= i < |f.calls| :: CallSafe(f.calls[i])
  {
    hide Step;
    InitialIsAtRest(w);
    RunKeeps(w, events);
  }

  // ---- the first steps of a run

  const ACCEPTED := SILENCE.(error := None)

  /** The first reconcile of a new object adds the finalizer. */
  lemma FinalizerIsAdded(w: World, o: Object)
    requires w.obj == Some(o) && w.history == [o] && o.version == 0 && !o.deleting && !o.finalizer && !Adopted(o.spec)
    ensures var w1 := Step(w, Reconciled(0, [Slot([], ACCEPTED)]));
            var o1 := o.(version := 1, finalizer := true);
            w1.obj == Some(o1) && w1.history == [o, o1] && w1.inFlight == w.inFlight
  {
    var v := w.(future := [Slot([], ACCEPTED)]);
    assert Enter(v) == v.(future := []);
  }

  lemma ThreeSteps(w: World, events: seq<Event>)
    requires |events| == 3
    ensures Run(w, events) == Step(Step(Step(w, events[0]), events[1]), events[2])
  {
    hide Step;
    var w1 := Step(w, events[0]);
    var rest := events[1..];
    assert Run(w1, rest) == Run(Step(w1, rest[0]), rest[1..]);
    assert Run(Step(w1, rest[0]), rest[1..]) == Run(Step(Step(w1, rest[0]), rest[1..][0]), rest[1..][1..]);
  }
}
