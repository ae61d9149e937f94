/** What holds of the world at every moment for every kind of resource, and what
    the environment can and cannot do between two calls of the operator. */
module Consistency {
  import opened Common
  import opened Environment

  /** The history numbers its versions; the stored object is the latest of them;
      a generation has one spec; a finalizer stays until the object goes, and so
      does a deletion request. */
  predicate HistoryConsistent(w: World) {
    && |w.history| > 0
    && (forall k | 0 <= k < |w.history| ::
          && w.history[k].version == k
          && w.history[k].name != ""
          && KindOfSpec(w.history[k].spec) == w.kind
          && Existing(w.history[k].spec) == Existing(w.history[0].spec))
    && (forall i, j {:trigger Follows(w.history[i], w.history[j])} | 0 <= i < j < |w.history| ::
          Follows(w.history[i], w.history[j]))
    && (w.obj.Some? ==> w.obj.value == w.history[|w.history| - 1])
  }

  predicate Follows(a: Object, b: Object) {
    && a.generation <= b.generation
    && (a.generation == b.generation ==> a.spec == b.spec)
    && (a.finalizer ==> b.finalizer)
    && (a.deleting ==> b.deleting)
    && a.name == b.name
  }

  predicate CloudConsistent(w: World) {
    && (forall id | id in w.live :: KindOf(w.live[id]) == w.kind)
    && w.mine <= w.live.Keys <= w.used
    && "" !in w.used
  }

  predicate Consistent(w: World) {
    HistoryConsistent(w) && CloudConsistent(w)
  }

  /** The view is one the cache may return. */
  predicate InHistory(w: World, o: Object) {
    o.version < |w.history| && w.history[o.version] == o
  }

  /** An object some user just created. */
  predicate Initial(w: World) {
    && w.obj.Some? && w.history == [w.obj.value] && w.obj.value.version == 0
    && w.obj.value.name != "" && !w.obj.value.deleting && !w.obj.value.finalizer
    && KindOfSpec(w.obj.value.spec) == w.kind
    && w.obj.value.status.id == "" && w.obj.value.status.condition.None?
    && CloudConsistent(w)
    && w.mine == {} && w.inFlight.None? && w.lost == {} && w.calls == [] && w.seen == {} && w.refs == {}
  }

  /** From v to w the history grew and, for the kinds STACKIT numbers, no ID
      came back to life. */
  predicate Grows(v: World, w: World) {
    && w.kind == v.kind
    && |v.history| <= |w.history|
    && (forall k | 0 <= k < |v.history| :: w.history[k] == v.history[k])
    && v.used <= w.used
    && (w.kind != KCluster ==> forall id | id in v.used && id in w.live :: id in v.live)
    && v.refs <= w.refs
  }

  /** From v to w only the environment moved. */
  predicate Drifts(v: World, w: World) {
    && Grows(v, w)
    && (|v.history| < |w.history| ==> v.obj.Some?)
    && (forall k | |v.history| <= k < |w.history| ::
          w.history[k].status == v.obj.value.status && w.history[k].finalizer == v.obj.value.finalizer)
    && (w.obj.Some? ==>
          && v.obj.Some?
          && w.obj.value.status == v.obj.value.status && w.obj.value.finalizer == v.obj.value.finalizer)
    && (w.obj.Some? && |w.history| == |v.history| ==> w.obj == v.obj)
    && (v.obj.Some? && v.obj.value.finalizer ==> w.obj.Some?)
    && w.mine <= v.mine
    && w.inFlight == v.inFlight && w.lost == v.lost
    && w.calls == v.calls && w.seen == v.seen && w.refs == v.refs
  }

  lemma DriftsTransitive(u: World, v: World, w: World)
    requires Drifts(u, v) && Drifts(v, w)
    ensures Drifts(u, w)
  {
  }

  lemma StoreConsistent(w: World, o: Object)
    requires HistoryConsistent(w) && w.obj.Some?
    requires MayEdit(w.obj.value, o.spec) && Follows(w.obj.value, o)
    ensures HistoryConsistent(Store(w, o))
  {
    var w' := Store(w, o);
    forall i, j | 0 <= i < j < |w'.history|
      ensures Follows(w'.history[i], w'.history[j])
    {
      if j == |w.history| && i < j - 1 {
        assert Follows(w.history[i], w.history[j - 1]);
      }
    }
  }

  /** Storing a version that only the users changed. */
  lemma StoreDrifts(w: World, o: Object)
    requires Consistent(w) && w.obj.Some?
    requires MayEdit(w.obj.value, o.spec) && Follows(w.obj.value, o)
    requires o.status == w.obj.value.status && o.finalizer == w.obj.value.finalizer
    ensures Consistent(Store(w, o)) && Drifts(w, Store(w, o))
  {
    StoreConsistent(w, o);
  }

  lemma MoveDrifts(w: World, m: Move)
    requires Consistent(w)
    ensures Consistent(MoveOnce(w, m)) && Drifts(w, MoveOnce(w, m))
  {
    hide Store;
    match m
    case EditSpec(spec) =>
      if w.obj.Some? && MayEdit(w.obj.value, spec) {
        StoreDrifts(w, w.obj.value.(spec := spec, generation := w.obj.value.generation + 1));
      }
    case EditMetadata =>
      if w.obj.Some? {
        StoreDrifts(w, w.obj.value);
      }
    case RequestDeletion =>
      if w.obj.Some? && !w.obj.value.deleting && w.obj.value.finalizer {
        StoreDrifts(w, w.obj.value.(deleting := true, generation := w.obj.value.generation + 1));
      }
    case Change(_, _) => CloudMoveDrifts(w, m);
    case Vanish(_) => CloudMoveDrifts(w, m);
    case Appear(_, _) => CloudMoveDrifts(w, m);
  }

  /** Moves in STACKIT. */
  lemma CloudMoveDrifts(w: World, m: Move)
    requires Consistent(w) && (m.Change? || m.Vanish? || m.Appear?)
    ensures Consistent(MoveOnce(w, m)) && Drifts(w, MoveOnce(w, m))
  {
  }

  lemma {:induction false} MovesDrift(w: World, ms: seq<Move>)
    requires Consistent(w)
    ensures Consistent(Moves(w, ms)) && Drifts(w, Moves(w, ms))
    decreases |ms|
  {
    if ms != [] {
      MoveDrifts(w, ms[0]);
      MovesDrift(MoveOnce(w, ms[0]), ms[1..]);
      DriftsTransitive(w, MoveOnce(w, ms[0]), Moves(w, ms));
    }
  }

  /** Entering a call is the environment moving. */
  lemma EnterDrifts(w: World)
    requires Consistent(w)
    ensures Consistent(Enter(w)) && Drifts(w, Enter(w))
  {
    if w.future != [] {
      MovesDrift(w.(future := w.future[1..]), w.future[0].moves);
    }
  }

  lemma PutConsistent(w: World, name: string, res: Resource, toBeStored: bool)
    requires CloudConsistent(w) && name != "" && KindOf(res) == w.kind
    ensures CloudConsistent(PutCluster(w, name, res, toBeStored))
  {
  }

  /** Optimistic concurrency: a write that goes through was based on exactly
      what is stored. */
  lemma WriteNeedsCurrentView(w: World, r: Reply, view: Object, o: Object)
    requires HistoryConsistent(w) && InHistory(w, view) && o.version == view.version
    ensures Lands(w, r, o) ==> w.obj == Some(view)
  {
  }
}
