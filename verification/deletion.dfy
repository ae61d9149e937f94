/** Deletion comes to an end: for every kind, as long as users leave the object
    alone and STACKIT refuses and dawdles only finitely often. */
module Deletion {
  import opened Common
  import opened StackitErrors
  import opened Environment
  import opened Lifecycle

  /** Resources change and vanish, but nobody touches the object and nothing
      appears. */
  predicate Quiet(ms: seq<Move>) {
    forall i | 0 <= i < |ms| :: ms[i].Change? || ms[i].Vanish?
  }

  lemma {:induction false} QuietMoves(w: World, ms: seq<Move>)
    requires Quiet(ms)
    ensures var w1 := Moves(w, ms);
            && w1 == w.(live := w1.live, mine := w1.mine) && w1.live.Keys <= w.live.Keys
    decreases |ms|
  {
    if ms != [] {
      QuietMoves(MoveOnce(w, ms[0]), ms[1..]);
    }
  }

  predicate QuietScript(script: seq<Slot>) {
    forall i | 0 <= i < |script| :: Quiet(script[i].moves)
  }

  lemma QuietEnter(w: World)
    requires QuietScript(w.future)
    ensures var w1 := Enter(w);
            && w1 == w.(live := w1.live, mine := w1.mine, future := w1.future) && w1.live.Keys <= w.live.Keys
            && QuietScript(w1.future)
  {
    if w.future != [] {
      QuietMoves(w.(future := w.future[1..]), w.future[0].moves);
    }
  }

  /** The object is marked for deletion and holds the finalizer; the ID is empty if
      none was ever stored, or if it was forgotten. */
  predicate Deleting(w: World, id: string) {
    w.obj.Some? && w.obj.value.deleting && w.obj.value.finalizer && w.obj.value.status.id == id
  }

  /** What a reconcile of the stored object runs into. */
  datatype Round = Finished | Waiting | Conflicting

  function Observed(w: World, id: string): Round {
    if id == "" then Finished else
    var (w1, got) := Get(w, id);
    if got.NotShown? then Finished
    else if StateOf(got.res) == DeletingState(w.kind) then Waiting
    else
      var (w2, refused) := Discard(w1, id);
      if refused.Some? && IsConflict(refused.value) then Conflicting else Waiting
  }

  /** Reads and writes to the API server go through, and a deletion is refused at
      most because of a conflict. */
  predicate Obliging(w: World, id: string) {
    if id == "" then NextReply(w).error.None? else
    var (w1, got) := Get(w, id);
    if got.NotShown? then IsNotFound(got.error) && NextReply(w1).error.None?
    else if StateOf(got.res) == DeletingState(w.kind) then NextReply(w1).error.None?
    else
      var (w2, refused) := Discard(w1, id);
      && (refused.Some? ==> IsNotFound(refused.value) || IsConflict(refused.value))
      && NextReply(w2).error.None?
  }

  /** How many conflicts STACKIT still answers with before it accepts the
      deletion, and how often it still shows the resource once it has. */
  datatype Budget = Budget(conflicts: nat, polls: nat, accepted: bool)

  function RoundsLeft(b: Budget): nat {
    b.conflicts + b.polls + if b.accepted then 0 else 1
  }

  predicate CanSpend(b: Budget, r: Round) {
    match r
    case Finished => true
    case Conflicting => if b.accepted then b.polls > 0 else b.conflicts > 0
    case Waiting => b.accepted ==> b.polls > 0
  }

  function Spend(b: Budget, r: Round): Budget
    requires CanSpend(b, r)
  {
    if r.Finished? then b
    else if b.accepted then b.(polls := b.polls - 1)
    else if r.Conflicting? then b.(conflicts := b.conflicts - 1)
    else b.(accepted := true)
  }

  /** One reconcile of what is stored. */
  function Now(w: World): World {
    if w.obj.Some? then Reconcile(w, w.obj.value).0 else w
  }

  function Again(w: World, script: seq<Slot>): World {
    Now(w.(future := script))
  }

  /** Reconciles of what is stored, until the object is gone. */
  function DeletionRun(w: World, scripts: seq<seq<Slot>>): World
    decreases |scripts|
  {
    if scripts == [] || w.obj.None? then w else DeletionRun(Again(w, scripts[0]), scripts[1..])
  }

  predicate Fair(w: World, id: string, b: Budget, scripts: seq<seq<Slot>>)
    decreases |scripts|
  {
    scripts == [] || w.obj.None? ||
    var v := w.(future := scripts[0]);
    && QuietScript(scripts[0]) && Obliging(v, id) && CanSpend(b, Observed(v, id))
    && Fair(Again(w, scripts[0]), id, Spend(b, Observed(v, id)), scripts[1..])
  }

  lemma GetIsQuiet(w: World, id: string)
    requires QuietScript(w.future)
    ensures var w1 := Get(w, id).0;
            && w1.obj == w.obj && w1.kind == w.kind && w1.inFlight == w.inFlight && w1.live.Keys <= w.live.Keys
            && w1.history == w.history && QuietScript(w1.future)
  {
    QuietEnter(w);
  }

  lemma DiscardIsQuiet(w: World, id: string)
    requires QuietScript(w.future)
    ensures var w1 := Discard(w, id).0;
            && w1.obj == w.obj && w1.kind == w.kind && w1.inFlight == w.inFlight && w1.live.Keys <= w.live.Keys
            && w1.history == w.history && QuietScript(w1.future)
  {
    QuietEnter(w);
  }

  lemma ReportKeepsDeleting(w: World, o: Object, seen: Object, id: string)
    requires QuietScript(w.future) && w.obj == Some(o) && Deleting(w, id) && NextReply(w).error.None?
    requires seen == o.(status := seen.status) && seen.status.id == id
    ensures var (w1, r) := ReportDeleting(w, o, seen, true);
            Deleting(w1, id) && r == After(PollInterval(w.kind)) && w1.kind == w.kind
  {
    QuietEnter(w);
  }

  lemma RemovalSucceeds(w: World, o: Object, id: string)
    requires QuietScript(w.future) && w.obj == Some(o) && Deleting(w, id) && NextReply(w).error.None? && id !in w.live
    ensures var (w1, r) := RemoveFinalizer(w, o); w1.obj.None? && r == Done && id !in w1.live
  {
    QuietEnter(w);
  }

  /** One round: the finalizer goes when the resource is gone, or when none is
      recorded, and not before. A conflict makes Volume, Network and Cluster come
      back after the poll interval, and is an error for Server. */
  lemma OneRound(w: World, id: string)
    requires Deleting(w, id) && QuietScript(w.future) && Obliging(w, id)
    requires id == "" ==> "" !in w.live
    ensures var (w1, r) := Reconcile(w, w.obj.value);
            match Observed(w, id)
            case Finished => w1.obj.None? && id !in w1.live && r == Done
            case Waiting => Deleting(w1, id) && r == After(PollInterval(w.kind))
            case Conflicting =>
              Deleting(w1, id) && (if w.kind == KServer then r.Failed? else r == After(PollInterval(w.kind)))
  {
    var o := w.obj.value;
    if id == "" {
      RemovalSucceeds(w, o, id);
    } else {
      GetIsQuiet(w, id);
      var (w1, got) := Get(w, id);
      match got
      case NotShown(e) =>
        assert id !in w1.live;
        RemovalSucceeds(w1, o, id);
      case Shown(res) =>
        var seen := Observe(o, res);
        if StateOf(res) == DeletingState(w.kind) {
          ReportKeepsDeleting(w1, o, seen, id);
        } else {
          DiscardIsQuiet(w1, id);
          ReportKeepsDeleting(Discard(w1, id).0, o, seen, id);
        }
    }
  }

  /** Once deletion is requested, with at most c conflicts before STACKIT accepts
      it and at most d sightings of the resource afterwards, the object is gone
      within c + d + 2 reconciles; until then it keeps its finalizer, and it
      never goes while the resource is there. */
  lemma {:induction false} DeletionTerminates(w: World, id: string, b: Budget, scripts: seq<seq<Slot>>)
    requires Deleting(w, id) && Fair(w, id, b, scripts) && (id == "" ==> "" !in w.live)
    ensures var f := DeletionRun(w, scripts);
            && (|scripts| > RoundsLeft(b) ==> f.obj.None?)
            && (f.obj.None? ==> id !in f.live)
            && (f.obj.Some? ==> Deleting(f, id))
    decreases |scripts|
  {
    assert scripts != [] && id == "" ==> Observed(w.(future := scripts[0]), id).Finished?;
    hide Reconcile, Obliging, Observed;
    if scripts != [] {
      var v := w.(future := scripts[0]);
      OneRound(v, id);
      var w1 := Again(w, scripts[0]);
      if w1.obj.Some? {
        DeletionTerminates(w1, id, Spend(b, Observed(v, id)), scripts[1..]);
      }
    }
  }
}
