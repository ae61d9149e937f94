/** Owned objects settle: with a fixed spec, references that are ready and a
    STACKIT that settles, a bounded number of reconciles leads to a Ready
    resource without drift, with at most one create and as many corrective calls
    as the kind has groups of fields: three for Server, two for Volume, one for
    Network and Cluster. */
module Convergence {
  import opened Common
  import opened Environment
  import opened Lifecycle
  import opened Deletion
  import Servers
  import Volumes
  import Networks
  import Clusters

  /** A stored object the operator owns, not deleted. Pool names are distinct:
      with repeated ones a Cluster may be corrected for ever. */
  predicate Wanted(w: World) {
    && w.obj.Some?
    && var o := w.obj.value;
       && !o.deleting && !Adopted(o.spec) && KindOfSpec(o.spec) == w.kind && o.name != ""
       && (o.status.id != "" ==> o.finalizer)
       && (o.spec.ClusterSpec? ==> Clusters.DistinctNames(o.spec.cluster.pools))
       && w.inFlight.None?
  }

  function Id(w: World): string {
    StoredId(w)
  }

  /** The stored ID is that of a live resource. */
  predicate Alive(w: World) {
    Id(w) != "" && Id(w) in w.live
  }

  predicate HasFinalizer(w: World) {
    w.obj.Some? && w.obj.value.finalizer
  }

  /** How many groups of fields of the resource differ from the spec. */
  function GroupsOf(o: Object, res: Resource): (n: nat)
    ensures n <= MaxGroups(KindOfSpec(o.spec))
  {
    match o.spec
    case ServerSpec(spec) => if res.Server? then Servers.DriftedGroups(spec, o.name, res.server) else 0
    case VolumeSpec(spec) => if res.Volume? then Volumes.DriftedGroups(spec, o.name, res.volume) else 0
    case NetworkSpec(spec) => if res.Network? && Networks.Drifted(spec, o.name, res.network) then 1 else 0
    case ClusterSpec(spec) => if res.Cluster? && Clusters.Drift(spec, res.cluster).Some? then 1 else 0
  }

  /** The same for the stored object. */
  function GroupsLeft(w: World, target: Resource): nat {
    if w.obj.Some? then GroupsOf(w.obj.value, target) else 0
  }

  function MaxGroups(k: Kind): nat {
    match k
    case KServer => 3
    case KVolume => 2
    case KNetwork => 1
    case KCluster => 1
  }

  /** What the resource will look like once STACKIT has carried out an accepted
      call on the shown one; labels may be merged or replaced, and SKE echoes
      the payload up to order, defaults and days. */
  ghost predicate CarriedOut(shown: Resource, a: Action, target: Resource) {
    match a
    case OnServer(x) =>
      shown.Server? && target.Server? &&
      (target.server == Servers.Apply(shown.server, x, true) || target.server == Servers.Apply(shown.server, x, false))
    case OnVolume(x) =>
      shown.Volume? && target.Volume? &&
      (target.volume == Volumes.Apply(shown.volume, x, true) || target.volume == Volumes.Apply(shown.volume, x, false))
    case OnNetwork(p) =>
      shown.Network? && target.Network? &&
      (target.network == Networks.ApplyUpdate(shown.network, p, true)
       || target.network == Networks.ApplyUpdate(shown.network, p, false))
    case OnCluster(p) => shown.Cluster? && target.Cluster? && Clusters.Echoes(p, target.cluster)
  }

  /** No call is due iff no group drifted, and a call that is carried out lowers
      the number of drifted groups. */
  lemma CallLowersGroups(o: Object, shown: Resource, target: Resource)
    requires KindOf(shown) == KindOfSpec(o.spec)
    requires o.spec.ClusterSpec? ==> Clusters.DistinctNames(o.spec.cluster.pools)
    ensures Drift(o, shown).None? <==> GroupsOf(o, shown) == 0
    ensures Drift(o, shown).Some? && CarriedOut(shown, Drift(o, shown).value, target) ==>
              GroupsOf(o, target) < GroupsOf(o, shown)
  {
    match o.spec
    case ServerSpec(spec) =>
      Servers.CallSettlesOneGroup(spec, o.name, shown.server, true);
      Servers.CallSettlesOneGroup(spec, o.name, shown.server, false);
    case VolumeSpec(spec) =>
      Volumes.CallSettlesOneGroup(spec, o.name, shown.volume, true);
      Volumes.CallSettlesOneGroup(spec, o.name, shown.volume, false);
    case NetworkSpec(spec) =>
      Networks.PatchClearsDrift(spec, o.name, shown.network, true);
      Networks.PatchClearsDrift(spec, o.name, shown.network, false);
    case ClusterSpec(spec) =>
      if target.Cluster? && Clusters.Echoes(Clusters.Payload(spec), target.cluster) {
        Clusters.UpsertFixedPoint(spec, target.cluster);
      }
  }

  /** The live resource matches the spec, and the object says so for the spec's
      current generation. */
  predicate Converged(w: World) {
    && Wanted(w) && w.obj.value.finalizer && Alive(w)
    && GroupsOf(w.obj.value, w.live[Id(w)]) == 0
    && w.obj.value.status.condition.Some? && w.obj.value.status.condition.value.ready
    && w.obj.value.status.condition.value.generation == w.obj.value.generation
  }

  /** The resource may change before the first call; after that nothing moves,
      and no call fails. */
  predicate Smooth(script: seq<Slot>) {
    |script| >= 6 && Quiet(script[0].moves) && script[0].reply.error.None? && Undisturbed(script[1..])
  }

  /** A reconcile's script; what the resource will look like once it has settled
      after that reconcile; and how many more times it may be found in a
      transitional state until then. */
  datatype Turn = Turn(script: seq<Slot>, target: Resource, polls: nat)

  /** The resource is shown in any way while it is in a transitional state, old
      values included, for as long as polls are left. Once it is in one of the
      Ready states it shows no more drift than the target. A call leaves at most
      `patience` polls behind and sets the target; nothing else does. A resource
      that is gone already when the turn begins may be gone; one that is there
      does not vanish. */
  ghost predicate Settles(w: World, target: Resource, polls: nat, t: Turn, patience: nat) {
    w.obj.Some? &&
    var v := w.(future := t.script);
    var o := w.obj.value;
    && Smooth(t.script)
    && (o.finalizer && o.status.id == "" ==> CreateAccepted(v) && t.polls <= patience)
    && (Alive(w) ==>
          var got := Get(v, o.status.id).1;
          && got.Shown? && KindOf(got.res) == w.kind
          && if Transitional(w.kind, StateOf(got.res)) then polls > 0 && t.polls == polls - 1 && t.target == target
             else ShowsTarget(w.kind, o, got.res, target, t, patience))
  }

  ghost predicate ShowsTarget(k: Kind, o: Object, shown: Resource, target: Resource, t: Turn, patience: nat) {
    && Steady(k, StateOf(shown)) && ReadyReason(k, StateOf(shown)).Some?
    && GroupsOf(o, shown) <= GroupsOf(o, target)
    && match Drift(o, shown)
       case None => t.polls == 0 && t.target == shown
       case Some(a) => t.polls <= patience && CarriedOut(shown, a, t.target)
  }

  /** The world in which a create call goes out, if its references resolve. */
  function BeforeCreate(v: World): World
    requires v.obj.Some?
  {
    match v.obj.value.spec
    case ServerSpec(spec) => Resolve(FreshRead(v).0, spec).0
    case ClusterSpec(_) => v
    case _ => FreshRead(v).0
  }

  /** The references resolve and the create is accepted, with a new ID where
      STACKIT gives one. The answer may show the resource in any state. */
  predicate CreateAccepted(v: World)
    requires v.obj.Some?
  {
    var w1 := BeforeCreate(v);
    && (v.obj.value.spec.ServerSpec? ==> Resolve(FreshRead(v).0, v.obj.value.spec.server).1.Resolved?)
    && KindOf(NextReply(w1).result) == v.kind
    && (v.kind != KCluster ==> NextReply(w1).withId && IsFree(w1, NextReply(w1).newId))
  }

  /** An upper bound for the reconciles of an existing resource: one poll after
      another, a round of polls for each group, and the final report. */
  function Needed(groups: nat, polls: nat, patience: nat): (n: nat)
    ensures n > 0
  {
    1 + polls + groups * (patience + 1)
  }

  /** An upper bound for the reconciles still needed. */
  function Rank(w: World, target: Resource, polls: nat, patience: nat): nat {
    var all := Needed(MaxGroups(w.kind), patience, patience);
    if !HasFinalizer(w) then all + 2
    else if Id(w) == "" then all + 1
    else if !Alive(w) then all + 2
    else if Converged(w) && polls == 0 && GroupsLeft(w, target) == 0 then 0
    else Needed(GroupsLeft(w, target), polls, patience)
  }

  /** Upper bounds for the creates and the corrective calls still made. */
  function CreatesLeft(w: World): nat {
    if Alive(w) then 0 else 1
  }

  function CorrectionsLeft(w: World, target: Resource): nat {
    if Alive(w) then GroupsLeft(w, target) else MaxGroups(w.kind)
  }

  function Creates(calls: seq<CallRecord>): nat {
    if calls == [] then 0
    else Creates(calls[..|calls| - 1]) + if calls[|calls| - 1].call.Create? then 1 else 0
  }

  function Corrections(calls: seq<CallRecord>): nat {
    if calls == [] then 0
    else Corrections(calls[..|calls| - 1]) + if calls[|calls| - 1].call.Correct? then 1 else 0
  }

  /** Deletions: the calls of neither sort. */
  function Others(calls: seq<CallRecord>): int {
    |calls| - Creates(calls) - Corrections(calls)
  }

  /** From v to w one call was issued. */
  predicate OneCall(v: World, w: World) {
    |w.calls| == |v.calls| + 1 && w.calls[..|v.calls|] == v.calls
  }

  lemma OneCallCounts(v: World, w: World)
    requires OneCall(v, w)
    ensures var c := w.calls[|v.calls|].call;
            && Creates(w.calls) == Creates(v.calls) + (if c.Create? then 1 else 0)
            && Corrections(w.calls) == Corrections(v.calls) + (if c.Correct? then 1 else 0)
            && Others(w.calls) == Others(v.calls) + (if c.Delete? then 1 else 0)
  {
  }

  function Play(w: World, turns: seq<Turn>): World
    decreases |turns|
  {
    if turns == [] then w else Play(Again(w, turns[0].script), turns[1..])
  }

  ghost predicate AllSettle(w: World, target: Resource, polls: nat, turns: seq<Turn>, patience: nat)
    decreases |turns|
  {
    turns == [] ||
    (Wanted(w) && Settles(w, target, polls, turns[0], patience) &&
     AllSettle(Again(w, turns[0].script), turns[0].target, turns[0].polls, turns[1..], patience))
  }

  // ---- one reconcile at each stage

  /** The object is what it was, up to its version, status and finalizer. */
  predicate SameWish(w: World, w1: World) {
    && w1.kind == w.kind && w.obj.Some? && w1.obj.Some?
    && var o, o1 := w.obj.value, w1.obj.value;
       o1 == o.(version := o1.version, status := o1.status, finalizer := o1.finalizer)
  }

  lemma GroupsDependOnWish(w: World, w1: World, res: Resource)
    requires SameWish(w, w1)
    ensures GroupsLeft(w1, res) == GroupsLeft(w, res)
  {
  }

  lemma FirstEnter(w: World)
    requires Smooth(w.future)
    ensures var w1 := Enter(w);
            && w1 == w.(live := w1.live, mine := w1.mine, future := w.future[1..])
            && NextReply(w).error.None?
  {
    QuietMoves(w.(future := w.future[1..]), w.future[0].moves);
  }

  lemma StillEnter(w: World)
    requires Undisturbed(w.future) && w.future != []
    ensures Enter(w) == w.(future := w.future[1..]) && NextReply(w).error.None?
  {
  }

  lemma WriteGoesThrough(w: World, before: Status, o: Object)
    requires Undisturbed(w.future) && w.future != [] && w.obj.Some? && o.version == w.obj.value.version
    requires before == w.obj.value.status && (w.inFlight.None? || before != o.status)
    ensures var (w1, e) := Sync(w, before, o, true);
            && e.None? && w1.obj.Some?
            && w1.obj.value == w.obj.value.(version := w1.obj.value.version, status := o.status)
            && w1.live == w.live && w1.kind == w.kind && w1.calls == w.calls && w1.inFlight.None?
  {
    StillEnter(w);
  }

  lemma AddingFinalizer(w: World)
    requires Wanted(w) && !w.obj.value.finalizer && Smooth(w.future)
    ensures var w1 := Now(w);
            Wanted(w1) && SameWish(w, w1) && HasFinalizer(w1) && Id(w1) == "" && w1.calls == w.calls
  {
    FirstEnter(w);
  }

  lemma ResolvingIsStill(w: World, spec: Servers.ServerSpec)
    requires Undisturbed(w.future) && |w.future| >= 5
    ensures var w1 := Resolve(w, spec).0;
            && w1 == w.(future := w1.future, refs := w1.refs)
            && |w1.future| >= |w.future| - 2 && Undisturbed(w1.future)
  {
    StillEnter(w);
    var w1 := ResolveNetwork(w, spec).0;
    StillEnter(w1);
  }

  /** The create went out and its resource is stored. */
  predicate MadeAndStored(w: World, w1: World) {
    && SameWish(w, w1) && HasFinalizer(w1) == HasFinalizer(w)
    && Alive(w1) && w1.inFlight.None?
    && OneCall(w, w1) && w1.calls[|w.calls|].call.Create?
  }

  lemma StoringGoesThrough(w: World, id: string, res: Resource)
    requires Undisturbed(w.future) && w.future != [] && w.obj.Some? && Id(w) == "" && id != ""
    ensures var o := w.obj.value;
            var w1 := StoreCreated(w, o.status, o, id, res, true).0;
            && SameWish(w, w1) && HasFinalizer(w1) == o.finalizer && Id(w1) == id
            && w1.live == w.live && w1.calls == w.calls && w1.inFlight.None?
  {
    WriteGoesThrough(w, w.obj.value.status, CreatedStatus(w.kind, w.obj.value, id, res));
  }

  lemma PostGoesThrough(w: World, payload: CreatePayload)
    requires Undisturbed(w.future) && |w.future| >= 2 && w.obj.Some? && Id(w) == ""
    requires NextReply(w).withId && KindOf(NextReply(w).result) == w.kind && IsFree(w, NextReply(w).newId)
    ensures MadeAndStored(w, CreateNew(w, w.obj.value.status, w.obj.value, payload, true).0)
  {
    hide Sync, StoreCreated;
    StillEnter(w);
    var r := NextReply(w);
    var (w1, created) := Post(w, payload);
    assert created == Accepted(r.newId, r.result) && w1.future == w.future[1..];
    StoringGoesThrough(w1, r.newId, r.result);
  }

  lemma UpsertGoesThrough(w: World, spec: Clusters.ClusterSpec)
    requires Smooth(w.future) && w.obj.Some? && Id(w) == "" && w.kind == KCluster && w.inFlight.None?
    requires w.obj.value.name != "" && KindOf(NextReply(w).result) == KCluster
    ensures MadeAndStored(w, CreateByName(w, w.obj.value, spec, true).0)
  {
    hide Sync, StoreCreated, Clusters.Payload, Enter;
    FirstEnter(w);
    var name := NameOr(spec.name, w.obj.value.name);
    var (w1, created) := Upsert(w, name, Clusters.Payload(spec), false);
    assert created == Accepted(name, NextReply(w).result) && w1.obj == w.obj && w1.future == w.future[1..];
    StoringGoesThrough(w1, name, created.res);
  }

  lemma CreateIsReconcile(w: World, o: Object)
    requires !o.deleting && o.finalizer && o.status.id == "" && !Adopted(o.spec)
    ensures Reconcile(w, o).0 ==
              if o.spec.ClusterSpec? then CreateByName(w, o, o.spec.cluster, true).0
              else CreateAfterReread(w, o, true).0
  {
    hide CreateByName, CreateAfterReread;
  }

  lemma CreateGoesThrough(w: World)
    requires w.obj.Some? && KindOfSpec(w.obj.value.spec) == w.kind && Id(w) == ""
    requires Smooth(w.future) && CreateAccepted(w) && !w.obj.value.spec.ClusterSpec?
    ensures MadeAndStored(w, CreateAfterReread(w, w.obj.value, true).0)
  {
    var o := w.obj.value;
    hide CreateNew, Resolve, Enter;
    FirstEnter(w);
    var w1 := FreshRead(w).0;
    match o.spec
    case ServerSpec(spec) =>
      ResolvingIsStill(w1, spec);
      var (w2, r) := Resolve(w1, spec);
      PostGoesThrough(w2, ServerPayload(o, r.imageId, r.networkId, r.bootVolumeId));
    case VolumeSpec(_) => PostGoesThrough(w1, VolumePayload(o));
    case NetworkSpec(_) => PostGoesThrough(w1, NetworkPayload(o));
    case ClusterSpec(_) =>
  }

  /** A create whose references are ready makes one call and stores what it made. */
  lemma Creating(w: World)
    requires Wanted(w) && HasFinalizer(w) && Id(w) == "" && Smooth(w.future) && CreateAccepted(w)
    ensures Wanted(Now(w)) && MadeAndStored(w, Now(w))
  {
    hide Reconcile, CreateByName, CreateAfterReread, Enter, Smooth;
    CreateIsReconcile(w, w.obj.value);
    if w.obj.value.spec.ClusterSpec? {
      UpsertGoesThrough(w, w.obj.value.spec.cluster);
    } else {
      CreateGoesThrough(w);
    }
  }

  /** A corrective call that does not fail, and changes no object. */
  lemma ActingIsStill(w: World, a: Action)
    requires Undisturbed(w.future) && w.future != [] && w.obj.Some? && Id(w) != "" && w.inFlight.None?
    ensures var w1 := Act(w, Id(w), a).0;
            && w1.obj == w.obj && w1.kind == w.kind && w1.inFlight.None?
            && OneCall(w, w1) && w1.calls[|w.calls|].call.Correct?
            && (Id(w) in w.live ==> Id(w) in w1.live)
  {
    StillEnter(w);
  }

  lemma ReconcileIsExisting(w: World, view: Object)
    requires !view.deleting && view.finalizer && view.status.id != "" && !Adopted(view.spec)
    ensures Reconcile(w, view).0 == ReconcileExisting(w, view, true).0
  {
    hide ReconcileExisting;
  }

  /** The read of a reconcile of a resource that is there. */
  lemma Shows(w: World, target: Resource, polls: nat, t: Turn, patience: nat)
    requires Wanted(w) && w.future == t.script && Alive(w) && Settles(w, target, polls, t, patience)
    ensures var (w1, got) := Get(w, Id(w));
            && w1 == w.(live := w1.live, mine := w1.mine, seen := w1.seen, future := w.future[1..])
            && Undisturbed(w1.future) && w1.future != []
            && got.Shown? && KindOf(got.res) == w.kind && Id(w) in w1.live && w1.live[Id(w)] == got.res
            && if Transitional(w.kind, StateOf(got.res)) then polls > 0 && t.polls == polls - 1 && t.target == target
               else ShowsTarget(w.kind, w.obj.value, got.res, target, t, patience)
  {
    hide Transitional, ShowsTarget, StateOf, Enter, Smooth;
    SmoothTail(w.future);
    FirstEnter(w);
  }

  /** A resource that is there: while transitional it is waited for, however it is
      shown; drift is answered by one call; a match is reported Ready. */
  lemma Watching(w: World, target: Resource, polls: nat, t: Turn, patience: nat)
    requires Wanted(w) && w.future == t.script && Alive(w) && Settles(w, target, polls, t, patience)
    ensures var w1 := Now(w);
            && Wanted(w1) && SameWish(w, w1) && Id(w1) == Id(w) && HasFinalizer(w1) && Alive(w1)
            && ((polls > 0 && t.polls == polls - 1 && t.target == target && w1.calls == w.calls)
                || (t.polls <= patience && GroupsLeft(w, t.target) < GroupsLeft(w, target)
                    && OneCall(w, w1) && w1.calls[|w.calls|].call.Correct?)
                || (t.polls == 0 && GroupsLeft(w, t.target) == 0 && Converged(w1) && w1.calls == w.calls))
  {
    var o := w.obj.value;
    hide Transitional, Broken, ReadyReason, Drift, MirrorOf, Verdict, Clusters.DistinctNames;
    hide Reconcile, Act, Sync, Get, CarriedOut, GroupsOf, StateOf, Settles, Smooth, Undisturbed;
    ReconcileIsExisting(w, o);
    Shows(w, target, polls, t, patience);
    var (w1, got) := Get(w, Id(w));
    var seen := Observe(o, got.res);
    DriftOfObserved(o, got.res);
    CallLowersGroups(o, got.res, t.target);
    if Steady(w.kind, StateOf(got.res)) && Drift(seen, got.res).Some? {
      ActingIsStill(w1, Drift(seen, got.res).value);
    } else {
      VerdictStored(w1, got.res);
      GroupsDependOnWish(w, Now(w), got.res);
    }
  }

  /** A verdict on a resource in a Ready state is Ready; no other changes the wish. */
  lemma VerdictStored(w: World, res: Resource)
    requires Wanted(w) && HasFinalizer(w) && Id(w) != "" && Undisturbed(w.future) && w.future != []
    ensures var o := w.obj.value;
            var w1 := Sync(w, o.status, Verdict(w.kind, Observe(o, res), res).0, true).0;
            && Wanted(w1) && SameWish(w, w1) && Id(w1) == Id(w) && HasFinalizer(w1)
            && w1.live == w.live && w1.calls == w.calls
            && (Steady(w.kind, StateOf(res)) && ReadyReason(w.kind, StateOf(res)).Some? ==>
                  var c := w1.obj.value.status.condition;
                  c.Some? && c.value.ready && c.value.generation == o.generation)
  {
    hide Sync, Transitional, Broken, ReadyReason, MirrorOf, StateOf, Clusters.DistinctNames;
    var o := w.obj.value;
    WriteGoesThrough(w, o.status, Verdict(w.kind, Observe(o, res), res).0);
  }

  lemma SmoothTail(script: seq<Slot>)
    requires Smooth(script)
    ensures |script| >= 2 && Undisturbed(script[1..])
  {
  }

  lemma DriftOfObserved(o: Object, res: Resource)
    ensures Drift(Observe(o, res), res) == Drift(o, res)
  {
  }

  lemma NeededGrows(groups: nat, polls: nat, more: nat, patience: nat)
    requires groups <= more && polls <= patience
    ensures Needed(groups, polls, patience) <= Needed(more, patience, patience)
  {
    assert groups * (patience + 1) + (more - groups) * (patience + 1) == more * (patience + 1);
  }

  /** A poll less, or a group less and a new round of polls. */
  lemma NeededDrops(groups: nat, polls: nat, groups1: nat, polls1: nat, patience: nat)
    requires (groups1 == groups && polls1 < polls) || (groups1 < groups && polls1 <= patience)
    ensures Needed(groups1, polls1, patience) < Needed(groups, polls, patience)
  {
    if groups1 < groups {
      var fewer := groups - 1 - groups1;
      assert groups1 * (patience + 1) + fewer * (patience + 1) + (patience + 1) == groups * (patience + 1);
    }
  }

  /** The progress one reconcile makes. */
  predicate Progress(w: World, target: Resource, polls: nat, w1: World, t: Turn, patience: nat) {
    && (Rank(w, target, polls, patience) == 0 ==> Rank(w1, t.target, t.polls, patience) == 0)
    && (Rank(w, target, polls, patience) > 0 ==>
          Rank(w1, t.target, t.polls, patience) < Rank(w, target, polls, patience))
    && Creates(w1.calls) + CreatesLeft(w1) <= Creates(w.calls) + CreatesLeft(w)
    && Corrections(w1.calls) + CorrectionsLeft(w1, t.target) <= Corrections(w.calls) + CorrectionsLeft(w, target)
    && Others(w1.calls) == Others(w.calls)
  }

  lemma CreatingProgress(w: World, target: Resource, polls: nat, t: Turn, patience: nat)
    requires Wanted(w) && w.future == t.script && HasFinalizer(w) && Id(w) == ""
    requires Settles(w, target, polls, t, patience)
    ensures var w1 := Now(w);
            Wanted(w1) && w1.kind == w.kind && Progress(w, target, polls, w1, t, patience)
  {
    hide Now, GroupsOf, Converged, Smooth, Needed, Creates, Corrections;
    Creating(w);
    var w1 := Now(w);
    OneCallCounts(w, w1);
    NeededGrows(GroupsLeft(w1, t.target), t.polls, MaxGroups(w.kind), patience);
  }

  lemma WatchingProgress(w: World, target: Resource, polls: nat, t: Turn, patience: nat)
    requires Wanted(w) && w.future == t.script && Alive(w) && Settles(w, target, polls, t, patience)
    ensures var w1 := Now(w);
            Wanted(w1) && w1.kind == w.kind && Progress(w, target, polls, w1, t, patience)
  {
    hide Now, GroupsOf, Settles, Converged, Needed, Creates, Corrections;
    Watching(w, target, polls, t, patience);
    var w1 := Now(w);
    GroupsDependOnWish(w, w1, t.target);
    var before, after := GroupsLeft(w, target), GroupsLeft(w, t.target);
    if OneCall(w, w1) {
      OneCallCounts(w, w1);
    }
    if Converged(w1) && t.polls == 0 && after == 0 {
    } else {
      NeededDrops(before, polls, after, t.polls, patience);
    }
  }

  /** A resource that is gone is found out and forgotten, so that the next
      reconcile makes a new one. */
  lemma FindingItGone(w: World)
    requires Wanted(w) && Id(w) != "" && !Alive(w) && Smooth(w.future)
    ensures var w1 := Now(w);
            Wanted(w1) && SameWish(w, w1) && HasFinalizer(w1) && Id(w1) == "" && w1.calls == w.calls
  {
    hide Enter, Sync;
    var o := w.obj.value;
    FirstEnter(w);
    GoneStaysGone(w, Id(w));
    var w1 := Get(w, Id(w)).0;
    assert Get(w, Id(w)).1 == NotShown(NO_SUCH_RESOURCE) && w1.obj == w.obj;
    WriteGoesThrough(w1, o.status, Forgotten(w.kind, o));
  }

  lemma GoneStaysGone(w: World, id: string)
    requires Smooth(w.future) && id !in w.live
    ensures id !in Enter(w).live
  {
    QuietMoves(w.(future := w.future[1..]), w.future[0].moves);
  }

  /** Each reconcile lowers the rank, and each mutating call the number of calls
      left. */
  lemma OneTurn(w: World, target: Resource, polls: nat, t: Turn, patience: nat)
    requires Wanted(w) && Settles(w, target, polls, t, patience)
    ensures var w1 := Again(w, t.script); Wanted(w1) && w1.kind == w.kind && Progress(w, target, polls, w1, t, patience)
  {
    hide Now, GroupsOf, Converged, Needed, Creates, Corrections;
    var v := w.(future := t.script);
    if !HasFinalizer(w) {
      AddingFinalizer(v);
    } else if Id(w) == "" {
      CreatingProgress(v, target, polls, t, patience);
      RankIgnoresFuture(w, v, target, polls, patience);
    } else if !Alive(w) {
      FindingItGone(v);
    } else {
      WatchingProgress(v, target, polls, t, patience);
      RankIgnoresFuture(w, v, target, polls, patience);
    }
  }

  lemma RankIgnoresFuture(w: World, v: World, target: Resource, polls: nat, patience: nat)
    requires Wanted(w) && v == w.(future := v.future)
    ensures Wanted(v) && Rank(v, target, polls, patience) == Rank(w, target, polls, patience)
    ensures CreatesLeft(v) == CreatesLeft(w) && CorrectionsLeft(v, target) == CorrectionsLeft(w, target)
  {
    hide GroupsOf, Needed;
  }

  /** Convergence, for every kind: however STACKIT orders and shows what it does,
      as many reconciles as the rank of the start lead to a Ready resource that
      matches its spec, and it stays so, also if the resource of the stored ID is
      gone. From the start on at most one create is made, and none if the resource
      exists; at most one corrective call for each
      group of fields, and no more than the start's target has drifted groups if
      the resource exists; and no other call. */
  lemma {:induction false} Converges(w: World, target: Resource, polls: nat, turns: seq<Turn>, patience: nat)
    requires Wanted(w) && AllSettle(w, target, polls, turns, patience)
    ensures var f := Play(w, turns);
            && (|turns| >= Rank(w, target, polls, patience) ==> Converged(f))
            && Creates(f.calls) <= Creates(w.calls) + CreatesLeft(w)
            && Corrections(f.calls) <= Corrections(w.calls) + CorrectionsLeft(w, target)
            && Others(f.calls) == Others(w.calls)
    decreases |turns|
  {
    hide Now, Settles, GroupsOf, Needed, Creates, Corrections;
    if turns != [] {
      var t := turns[0];
      OneTurn(w, target, polls, t, patience);
      Converges(Again(w, t.script), t.target, t.polls, turns[1..], patience);
    }
  }

  /** One corrective upsert per change of the spec: from any moment at which a
      Cluster exists, whatever it and its spec look like then, a run with that
      spec makes at most one mutating call, and none if the spec is met. */
  lemma OneUpsertPerSpecChange(w: World, target: Resource, polls: nat, turns: seq<Turn>, patience: nat)
    requires Wanted(w) && w.kind == KCluster && Alive(w) && AllSettle(w, target, polls, turns, patience)
    ensures var f := Play(w, turns);
            && |f.calls| <= |w.calls| + 1
            && (GroupsLeft(w, target) == 0 ==> |f.calls| <= |w.calls|)
  {
    Converges(w, target, polls, turns, patience);
  }

  // ---- what the hypothesis allows

  /** One turn of a slow STACKIT: while polls are left the server is shown in a
      transitional state with whatever values `stale` has; then as the target.
      A corrective call is answered in a transitional state, nothing changed. */
  function SlowTurn(w: World, target: Servers.Server, polls: nat, patience: nat, stale: Servers.Server): Turn
    requires Wanted(w) && w.kind == KServer
  {
    var shown := if polls > 0 then stale.(state := Some("RESIZING")) else target;
    var idle := Slot([], SILENCE.(error := None, result := Server(shown.(state := Some("UPDATING")))));
    var script := [idle.(moves := [Change(Id(w), Server(shown))]), idle, idle, idle, idle, idle];
    var d := Servers.Drift(w.obj.value.spec.server, w.obj.value.name, shown);
    if polls > 0 then Turn(script, Server(target), polls - 1)
    else if d.None? then Turn(script, Server(target), 0)
    else Turn(script, Server(Servers.Apply(shown, d.value, true)), patience)
  }

  lemma SlowTurnSettles(w: World, target: Servers.Server, polls: nat, patience: nat, stale: Servers.Server)
    requires Wanted(w) && w.kind == KServer && Alive(w)
    requires target.state in {Some("ACTIVE"), Some("INACTIVE")}
    ensures Settles(w, Server(target), polls, SlowTurn(w, target, polls, patience, stale), patience)
  {
    var t := SlowTurn(w, target, polls, patience, stale);
    var v := w.(future := t.script);
    hide Transitional, Broken, ReadyReason, Servers.Drift, GroupsOf, Servers.Apply;
    OneMove(v.(future := v.future[1..]), t.script[0].moves[0]);
    var shown := Get(v, Id(w)).1.res;
    ServerStates(shown.server);
  }

  lemma OneMove(w: World, m: Move)
    ensures Moves(w, [m]) == MoveOnce(w, m)
  {
    hide MoveOnce;
    assert Moves(MoveOnce(w, m), [m][1..]) == MoveOnce(w, m);
  }

  lemma ServerStates(s: Servers.Server)
    ensures s.state == Some("RESIZING") ==> Transitional(KServer, StateOf(Server(s)))
    ensures s.state in {Some("ACTIVE"), Some("INACTIVE")} ==>
              Steady(KServer, StateOf(Server(s))) && ReadyReason(KServer, StateOf(Server(s))).Some?
  {
  }

  /** The convergence theorem is about slow backends too: whatever an existing
      server is to become, however long each call takes and whatever old values
      are shown meanwhile, there are runs of every length that settle. */
  lemma {:induction false} SlowBackendsSettle(
      w: World, target: Servers.Server, polls: nat, patience: nat, stale: Servers.Server, n: nat)
    returns (turns: seq<Turn>)
    requires Wanted(w) && w.kind == KServer && Alive(w)
    requires target.state in {Some("ACTIVE"), Some("INACTIVE")}
    ensures |turns| == n && AllSettle(w, Server(target), polls, turns, patience)
    decreases n
  {
    hide Reconcile, Settles, Smooth, CarriedOut;
    turns := [];
    if n > 0 {
      var t := SlowTurn(w, target, polls, patience, stale);
      SlowTurnSettles(w, target, polls, patience, stale);
      SlowTurnSettles(w.(future := t.script), target, polls, patience, stale);
      Watching(w.(future := t.script), Server(target), polls, t, patience);
      var rest := SlowBackendsSettle(Again(w, t.script), t.target.server, t.polls, patience, stale, n - 1);
      turns := [t] + rest;
    }
  }
}
