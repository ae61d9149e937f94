/** What a reconcile does and says in the terms users and STACKIT see: the states
    that are read, the calls that go out, and the reasons, messages and delays that
    follow, written out, from any view and under any script. */
module Outcomes {
  import opened Common
  import opened StackitErrors
  import opened Environment
  import opened Lifecycle
  import Provenance
  import Stalls
  import Servers
  import Volumes
  import Networks
  import Clusters

  // ---- calls

  lemma {:induction false} MovesCallNothing(w: World, ms: seq<Move>)
    ensures Moves(w, ms).calls == w.calls && Moves(w, ms).kind == w.kind
    decreases |ms|
  {
    if ms != [] {
      MovesCallNothing(MoveOnce(w, ms[0]), ms[1..]);
    }
  }

  lemma EnterCallsNothing(w: World)
    ensures Enter(w).calls == w.calls && Enter(w).kind == w.kind
  {
    if w.future != [] {
      MovesCallNothing(w.(future := w.future[1..]), w.future[0].moves);
    }
  }

  /** From v to w this one mutating call went out. */
  predicate Issued(v: World, w: World, call: Call, target: string) {
    && |w.calls| == |v.calls| + 1 && w.calls[..|v.calls|] == v.calls
    && w.calls[|v.calls|].call == call && w.calls[|v.calls|].target == target
  }

  // ---- reports

  /** The status of the object with a new condition. */
  function Told(o: Object, ready: bool, reason: string, message: string): Status {
    o.status.(condition := Some(Condition(ready, reason, message, o.generation)))
  }

  /** The status that shows the resource and a new condition. */
  function Shows(o: Object, res: Resource, state: string, ready: bool, reason: string, message: string): Status {
    Status(o.status.id, state, o.generation, MirrorOf(o.status.mirror, res),
           Some(Condition(ready, reason, message, o.generation)))
  }

  /** From w on no call goes out any more, the status s is written if it is news,
      and the result is r if that meets no error. */
  predicate Reports(w: World, before: Status, o: Object, s: Status, r: Result, out: (World, Result)) {
    var (w1, failure) := Sync(w, before, o.(status := s), true);
    && out == (w1, if failure.Some? then Failed(failure.value) else r)
    && w1.calls == w.calls
  }

  /** The same, but a failure to write is only logged. */
  predicate Logs(w: World, before: Status, o: Object, s: Status, r: Result, out: (World, Result)) {
    out == (Sync(w, before, o.(status := s), true).0, r) && out.0.calls == w.calls
  }

  lemma SyncCallsNothing(w: World, before: Status, o: Object)
    ensures Sync(w, before, o, true).0.calls == w.calls
  {
    EnterCallsNothing(w);
  }

  lemma GetCallsNothing(w: World, id: string)
    ensures Get(w, id).0.calls == w.calls && Get(w, id).0.kind == w.kind
  {
    EnterCallsNothing(w);
  }

  // ---- an existing resource, by the state it is read in

  /** The corrective call a goes out, and the result says whether it failed. */
  predicate Corrects(w: World, id: string, a: Action, out: (World, Result)) {
    var (w1, failure) := Act(w, id, a);
    && out == (w1, if failure.Some? then Failed(failure.value) else Requeue)
    && Issued(w, w1, Correct(a), id)
  }

  lemma ActIsIssued(w: World, id: string, a: Action)
    ensures Issued(w, Act(w, id, a).0, Correct(a), id)
  {
    EnterCallsNothing(w);
  }

  /** How a state is answered: whether drift is corrected in it, and what is
      reported, and for how long, if it is not or there is none. */
  datatype Answer = Answer(correct: bool, ready: bool, reason: string, message: string, delay: nat)

  /** A reconcile of an existing resource that shows `res` answers like that: it
      makes at most the one corrective call, and none for an adopted object. */
  predicate Answers(w: World, o: Object, res: Resource, state: string, a: Answer) {
    var (w1, out) := (Get(w, o.status.id).0, ReconcileExisting(w, o, true));
    && w1.calls == w.calls
    && if a.correct && DerefString(Existing(o.spec)) == "" && Drift(o, res).Some? then
         Corrects(w1, o.status.id, Drift(o, res).value, out)
       else
         Reports(w1, o.status, o, Shows(o, res, state, a.ready, a.reason, a.message), After(a.delay), out)
  }

  /** The answer that Verdict stands for. */
  predicate Means(k: Kind, o: Object, res: Resource, state: string, a: Answer) {
    && state == StateOf(res) && a.correct == Steady(k, state)
    && var (p, r) := Verdict(k, Observe(o, res), res);
       && p.status == Shows(o, res, state, a.ready, a.reason, a.message)
       && r == After(a.delay)
  }

  lemma AnswersLikeVerdict(w: World, o: Object, res: Resource, state: string, a: Answer)
    requires Get(w, o.status.id).1 == Shown(res) && Means(w.kind, o, res, state, a)
    ensures Answers(w, o, res, state, a)
  {
    hide Get, Act, Sync, Transitional, Broken, ReadyReason, MirrorOf, StateOf, StateMessage, Issued, Shows;
    GetCallsNothing(w, o.status.id);
    var w1, seen := Get(w, o.status.id).0, Observe(o, res);
    Provenance.DriftIgnoresStatus(o, seen, res);
    SyncCallsNothing(w1, o.status, Verdict(w.kind, seen, res).0);
    if Drift(o, res).Some? {
      ActIsIssued(w1, o.status.id, Drift(o, res).value);
    }
  }

  lemma StateMessages(state: string)
    ensures StateMessage(KServer, state) == "server is " + state && StateMessage(KVolume, state) == "volume is " + state
    ensures StateMessage(KNetwork, state) == "network is " + state
    ensures StateMessage(KCluster, state) == "cluster is " + state
  {
    assert "server" + " is " == "server is " && "volume" + " is " == "volume is ";
    assert "network" + " is " == "network is " && "cluster" + " is " == "cluster is ";
  }

  /** Server: no call in the transitional states and in ERROR; in any other state
      drift is corrected, and reported only if there is none. */
  lemma ServerByState(w: World, o: Object, s: Servers.Server)
    requires w.kind == KServer && Get(w, o.status.id).1 == Shown(Server(s))
    ensures var state := if s.state.Some? then s.state.value else "";
            Answers(w, o, Server(s), state,
              if state in {"CREATING", "STARTING", "STOPPING", "RESIZING", "DELETING", "UPDATING", "REBOOT",
                           "REBOOTING", "REBUILD", "REBUILDING", "RESCUE", "RESCUING", "RESTORING", "SNAPSHOTTING",
                           "MIGRATING", "BACKING-UP", "UNRESCUING", "DEALLOCATING"}
              then Answer(false, false, "Transitioning", "server is " + state, 30)
              else if state == "ERROR"
              then Answer(false, false, "Error", if s.errorMessage.Some? then s.errorMessage.value else "", 60)
              else if state == "ACTIVE" then Answer(true, true, "Active", "server is " + state, 300)
              else if state == "INACTIVE" then Answer(true, true, "Inactive", "server is " + state, 300)
              else Answer(true, false, "Unknown", "server is " + state, 300))
  {
    hide Answers, MirrorOf, StateMessage, Get;
    StateMessages(DerefString(s.state));
    forall a | Means(KServer, o, Server(s), DerefString(s.state), a) {
      AnswersLikeVerdict(w, o, Server(s), DerefString(s.state), a);
    }
  }

  /** Volume: the same with its own states; every state that begins with ERROR is
      an error. */
  lemma VolumeByState(w: World, o: Object, v: Volumes.Volume)
    requires w.kind == KVolume && Get(w, o.status.id).1 == Shown(Volume(v))
    ensures var state := if v.state.Some? then v.state.value else "";
            Answers(w, o, Volume(v), state,
              if state in {"CREATING", "ATTACHING", "DETACHING", "DOWNLOADING", "BACKING-UP", "RESIZING",
                           "RESTORING-BACKUP", "RETYPING", "UPLOADING", "AWAITING-TRANSFER", "MAINTENANCE", "RESERVED"}
              then Answer(false, false, "Transitioning", "volume is " + state, 10)
              else if |state| >= 5 && state[..5] == "ERROR"
              then Answer(false, false, "Error", "volume is " + state, 60)
              else if state == "AVAILABLE" then Answer(true, true, "Available", "volume is " + state, 300)
              else if state == "ATTACHED" then Answer(true, true, "Attached", "volume is " + state, 300)
              else Answer(true, false, "Unknown", "volume is " + state, 300))
  {
    hide Answers, MirrorOf, StateMessage, Get;
    StateMessages(DerefString(v.state));
    forall a | Means(KVolume, o, Volume(v), DerefString(v.state), a) {
      AnswersLikeVerdict(w, o, Volume(v), DerefString(v.state), a);
    }
  }

  lemma NetworkByState(w: World, o: Object, n: Networks.Network)
    requires w.kind == KNetwork && Get(w, o.status.id).1 == Shown(Network(n))
    ensures Answers(w, o, Network(n), n.state,
              if n.state in {"CREATING", "DELETING", "UPDATING"}
              then Answer(false, false, "Transitioning", "network is " + n.state, 10)
              else if n.state == "FAILED" then Answer(false, false, "Error", "network is " + n.state, 60)
              else if n.state == "CREATED" then Answer(true, true, "Created", "network is " + n.state, 300)
              else if n.state == "UPDATED" then Answer(true, true, "Updated", "network is " + n.state, 300)
              else Answer(true, false, "Unknown", "network is " + n.state, 300))
  {
    hide Answers, MirrorOf, StateMessage, Get;
    StateMessages(n.state);
    forall a | Means(KNetwork, o, Network(n), n.state, a) {
      AnswersLikeVerdict(w, o, Network(n), n.state, a);
    }
  }

  /** A cluster without a report has no state yet. */
  function Aggregated(c: Clusters.Cluster): string {
    if c.report.Some? && c.report.value.aggregated.Some? then c.report.value.aggregated.value else ""
  }

  lemma ClusterByState(w: World, o: Object, c: Clusters.Cluster)
    requires w.kind == KCluster && Get(w, o.status.id).1 == Shown(Cluster(c))
    ensures var state := Aggregated(c);
            Answers(w, o, Cluster(c), state,
              if state in {"STATE_CREATING", "STATE_DELETING", "STATE_RECONCILING", "STATE_HIBERNATING",
                           "STATE_WAKINGUP"}
              then Answer(false, false, "Transitioning", "cluster is " + state, 30)
              else if state == "STATE_UNHEALTHY"
              then Answer(false, false, "Unhealthy", "cluster is " + state, 60)
              else if state == "STATE_HEALTHY" then Answer(true, true, "Healthy", "cluster is " + state, 300)
              else if state == "STATE_HIBERNATED"
              then Answer(true, true, "Hibernated", "cluster is " + state, 300)
              else Answer(true, false, "Unknown", "cluster is " + state, 300))
  {
    hide Answers, MirrorOf, StateMessage, Get;
    StateMessages(Aggregated(c));
    forall a | Means(KCluster, o, Cluster(c), Aggregated(c), a) {
      AnswersLikeVerdict(w, o, Cluster(c), Aggregated(c), a);
    }
  }

  /** A resource that cannot be read: only a 404 says that it is gone. Then an
      owned one is forgotten, to be made anew, and an adopted one is waited for. */
  lemma ExistingNotShown(w: World, o: Object)
    requires Get(w, o.status.id).1.NotShown?
    ensures var ((w1, got), out) := (Get(w, o.status.id), ReconcileExisting(w, o, true));
            && w1.calls == w.calls
            && if !(got.error.OpenAPI? && got.error.status == 404) then out == (w1, Failed(got.error))
               else if Adopted(o.spec) then
                 Reports(w1, o.status, o, Told(o, false, "NotFound", NotInStackit(w.kind)), After(60), out)
               else
                 var message := Word(w.kind) + " not found in STACKIT, will recreate";
                 Reports(w1, o.status, o, Told(o, false, "NotFound", message).(id := ""), Requeue, out)
  {
    hide Get, Sync;
    GetCallsNothing(w, o.status.id);
    var w1 := Get(w, o.status.id).0;
    SyncCallsNothing(w1, o.status, SetReady(o, false, "NotFound", NotFoundMessage(w.kind)));
    SyncCallsNothing(w1, o.status, Forgotten(w.kind, o));
    assert Forgotten(w.kind, o) == o.(status := Forgotten(w.kind, o).status);
    NotFoundMessages();
  }

  function NotInStackit(k: Kind): string {
    if k == KCluster then "existingClusterName not found in STACKIT" else "existingId not found in STACKIT"
  }

  lemma NotFoundMessages()
    ensures forall k :: NotFoundMessage(k) == NotInStackit(k)
  {
    assert "existingClusterName" + " not found in STACKIT" == "existingClusterName not found in STACKIT";
    assert "existingId" + " not found in STACKIT" == "existingId not found in STACKIT";
  }

  /** Adoption at first sight: the ID and what is read are noted, the condition is
      left alone; a 404 is noted and waited out, any other error is returned. */
  lemma AdoptByRead(w: World, o: Object, id: string)
    ensures var ((w1, got), out) := (Get(w, id), Adopt(w, o, id, true));
            && w1.calls == w.calls
            && match got
               case Shown(res) =>
                 var s := Status(id, StateOf(res), o.generation, MirrorOf(o.status.mirror, res), o.status.condition);
                 Reports(w1, o.status, o, s, Requeue, out)
               case NotShown(e) =>
                 if e.OpenAPI? && e.status == 404 then
                   Logs(w1, o.status, o, Told(o, false, "NotFound", NotInStackit(w.kind)), After(60), out)
                 else out == (w1, Failed(e))
  {
    hide Get, Sync, StateOf, MirrorOf;
    GetCallsNothing(w, id);
    var (w1, got) := Get(w, id);
    NotFoundMessages();
    SyncCallsNothing(w1, o.status, SetReady(o, false, "NotFound", NotFoundMessage(w.kind)));
    if got.Shown? {
      SyncCallsNothing(w1, o.status, Observe(WithId(o, id), got.res));
    }
  }

  // ---- deletion

  /** The resource is on its way out already. */
  predicate ShownDeleting(res: Resource) {
    match res
    case Server(s) => s.state == Some("DELETING")
    case Volume(v) => v.state == Some("DELETING")
    case Network(n) => n.state == "DELETING"
    case Cluster(c) => Aggregated(c) == "STATE_DELETING"
  }

  lemma DeletingStates(res: Resource)
    ensures StateOf(res) == DeletingState(KindOf(res)) <==> ShownDeleting(res)
  {
  }

  /** A resource that is there is deleted by one call, and by none while it is
      shown as being deleted. A 404 on that call is as good as success; a 409 is
      waited out, except for Server; the status always says Deleting in the end. */
  lemma DeleteByState(w: World, o: Object)
    requires o.finalizer && o.status.id != ""
    requires Get(w, o.status.id).1.Shown? && KindOf(Get(w, o.status.id).1.res) == w.kind
    ensures var ((w1, got), out) := (Get(w, o.status.id), ReconcileDelete(w, o, true));
            var s := Shows(o, got.res, StateOf(got.res), false, "Deleting", StateMessage(w.kind, StateOf(got.res)));
            var later := After(if w.kind == KServer || w.kind == KCluster then 30 else 10);
            && w1.calls == w.calls
            && if ShownDeleting(got.res) then Reports(w1, o.status, o, s, later, out)
               else
                 var (w2, refused) := Discard(w1, o.status.id);
                 && Issued(w1, w2, Delete, o.status.id)
                 && (if refused.None? || Tolerated(w.kind, refused.value) then Reports(w2, o.status, o, s, later, out)
                     else out == (w2, Failed(refused.value)))
  {
    hide Get, Discard, Sync, StateOf, MirrorOf, StateMessage;
    GetCallsNothing(w, o.status.id);
    var (w1, got) := Get(w, o.status.id);
    DeletingStates(got.res);
    var p := SetReady(Observe(o, got.res), false, "Deleting", StateMessage(w.kind, StateOf(got.res)));
    SyncCallsNothing(w1, o.status, p);
    DiscardIsIssued(w1, o.status.id);
    SyncCallsNothing(Discard(w1, o.status.id).0, o.status, p);
  }

  predicate Tolerated(k: Kind, e: Error) {
    e.OpenAPI? && (e.status == 404 || (e.status == 409 && k != KServer))
  }

  lemma DiscardIsIssued(w: World, id: string)
    ensures Issued(w, Discard(w, id).0, Delete, id) && Discard(w, id).0.kind == w.kind
  {
    EnterCallsNothing(w);
  }

  /** The finalizer goes, and no call goes out, iff there is no ID or STACKIT
      answers 404; any other failed read is returned. */
  lemma DeleteWithoutResource(w: World, o: Object)
    requires o.status.id == "" || Get(w, o.status.id).1.NotShown?
    ensures var (w1, out) := (if o.status.id == "" then w else Get(w, o.status.id).0, ReconcileDelete(w, o, true));
            && out.0.calls == w.calls
            && if !o.finalizer then out == (w, Done)
               else if o.status.id != "" && !Tolerated(KServer, Get(w, o.status.id).1.error)
               then out == (w1, Failed(Get(w, o.status.id).1.error))
               else
                 var (w2, failure) := Update(w1, o.(finalizer := false));
                 out == (w2, if failure.Some? then Failed(failure.value) else Done)
  {
    hide Get, Update;
    GetCallsNothing(w, o.status.id);
    UpdateCallsNothing(w, o.(finalizer := false));
    UpdateCallsNothing(Get(w, o.status.id).0, o.(finalizer := false));
  }

  lemma UpdateCallsNothing(w: World, o: Object)
    ensures Update(w, o).0.calls == w.calls
  {
    EnterCallsNothing(w);
  }

  // ---- create

  /** What the status says once a create was accepted. */
  function Created(k: Kind, o: Object, id: string, res: Resource): Status {
    Shows(o, res, StateOf(res), false, "Creating", Word(k) + " creation triggered").(id := id)
  }

  lemma StoreReports(w: World, before: Status, o: Object, id: string, res: Resource)
    ensures Reports(w, before, o, Created(w.kind, o, id, res),
                    After(if w.kind == KServer || w.kind == KCluster then 30 else 10),
                    StoreCreated(w, before, o, id, res, true))
  {
    hide Sync, StateOf, MirrorOf;
    SyncCallsNothing(w, before, CreatedStatus(w.kind, o, id, res));
  }

  lemma PostIsIssued(w: World, payload: CreatePayload)
    ensures Issued(w, Post(w, payload).0, Create(payload), NextReply(w).newId) && Post(w, payload).0.kind == w.kind
  {
    EnterCallsNothing(w);
  }

  /** A create is one call. An accepted one is stored with its ID, a refused one
      is reported and retried; only Network takes an answer without an ID. */
  lemma CreateByAnswer(w: World, before: Status, o: Object, payload: CreatePayload)
    ensures var ((w1, created), out) := (Post(w, payload), CreateNew(w, before, o, payload, true));
            && Issued(w, w1, Create(payload), NextReply(w).newId)
            && match created
               case Refused(e) => Logs(w1, before, o, Told(o, false, "CreateFailed", e.text), Failed(e), out)
               case Accepted(id, res) =>
                 if id == "" && w.kind in {KServer, KVolume, KCluster} then
                   out == (w1, Failed(Other("STACKIT returned a " + Word(w.kind) + " without an ID")))
                 else
                   Reports(w1, before, o, Created(w.kind, o, id, res),
                           After(if w.kind == KServer || w.kind == KCluster then 30 else 10), out)
  {
    hide Post, Sync, Created, StoreCreated;
    PostIsIssued(w, payload);
    var (w1, created) := Post(w, payload);
    match created
    case Refused(e) => SyncCallsNothing(w1, before, SetReady(o, false, "CreateFailed", e.text));
    case Accepted(id, res) => StoreReports(w1, before, o, id, res);
  }

  lemma UpsertIsIssued(w: World, name: string, payload: Clusters.ClusterPayload)
    ensures Issued(w, Upsert(w, name, payload, false).0, Create(UpsertCluster(payload)), name)
    ensures Upsert(w, name, payload, false).0.kind == w.kind
  {
    EnterCallsNothing(w);
  }

  /** The create of a Cluster is one upsert of its payload under spec.name, or
      under the object's name. A 409 that says AlreadyExists is answered by a read,
      and what that shows is recorded like a new cluster. */
  lemma CreateClusterByAnswer(w: World, o: Object, spec: Clusters.ClusterSpec)
    requires w.kind == KCluster
    ensures var name := if spec.name != "" then spec.name else o.name;
            var payload := Clusters.Payload(spec);
            var ((w1, created), out) := (Upsert(w, name, payload, false), CreateByName(w, o, spec, true));
            && Issued(w, w1, Create(UpsertCluster(payload)), name)
            && match created
               case Accepted(_, res) => Reports(w1, o.status, o, Created(KCluster, o, name, res), After(30), out)
               case Refused(e) =>
                 if !(e.OpenAPI? && e.status == 409 && Contains(e.body, "AlreadyExists")) then
                   Logs(w1, o.status, o, Told(o, false, "CreateFailed", e.text), Failed(e), out)
                 else
                   var (w2, got) := Get(w1, name);
                   && w2.calls == w1.calls
                   && match got
                      case NotShown(e') => out == (w2, Failed(e'))
                      case Shown(res) => Reports(w2, o.status, o, Created(KCluster, o, name, res), After(30), out)
  {
    hide Upsert, Get, Sync, Created, StoreCreated, Contains, Clusters.Payload;
    var name := NameOr(spec.name, o.name);
    UpsertIsIssued(w, name, Clusters.Payload(spec));
    var (w1, created) := Upsert(w, name, Clusters.Payload(spec), false);
    GetCallsNothing(w1, name);
    match created
    case Accepted(_, res) => StoreReports(w1, o.status, o, name, res);
    case Refused(e) =>
      SyncCallsNothing(w1, o.status, SetReady(o, false, "CreateFailed", e.text));
      var (w2, got) := Get(w1, name);
      if got.Shown? {
        StoreReports(w2, o.status, o, name, got.res);
      }
  }

  /** The ID to put the server's network, image or boot volume under, if it is
      known by now: given, or read from an object that has one; a boot volume must
      be AVAILABLE as well. No boot volume at all is the empty ID. */
  function NetworkKnown(w: World, spec: Servers.ServerSpec): Option<string> {
    if spec.networkRef.None? then if spec.networkId != "" then Some(spec.networkId) else None
    else if spec.networkId != "" then None
    else match ReadRef(w, false, spec.networkRef.value).1
         case Read(id, _) => if id != "" then Some(id) else None
         case _ => None
  }

  function BootVolumeKnown(w: World, spec: Servers.ServerSpec): Option<string> {
    if spec.bootVolumeRef.None? then Some("")
    else match ReadRef(w, true, spec.bootVolumeRef.value).1
         case Read(id, "AVAILABLE") => if id != "" then Some(id) else None
         case _ => None
  }

  /** The read of a reference, if there is one. */
  function ReadIfAny(w: World, bootVolume: bool, name: Option<string>): (World, RefRead) {
    if name.Some? then ReadRef(w, bootVolume, name.value) else (w, Missing)
  }

  /** References are resolved by reading the network and then the boot volume,
      unless the spec is invalid: they are ready iff both are known, an error in
      reading is passed on, and otherwise they are waited for. */
  lemma ResolutionByReferences(w: World, spec: Servers.ServerSpec)
    requires !Stalls.InvalidSpec(spec)
    ensures var (w1, network) := ReadIfAny(w, false, spec.networkRef);
            var (w2, volume) := ReadIfAny(w1, true, spec.bootVolumeRef);
            var (known, boot) := (NetworkKnown(w, spec), BootVolumeKnown(w1, spec));
            Resolve(w, spec) ==
              if network.Unreadable? then (w1, Invalid(Other(network.error.text)))
              else if volume.Unreadable? then (w2, Invalid(Other(volume.error.text)))
              else if known.Some? && boot.Some? then (w2, Resolved(spec.imageId, known.value, boot.value))
              else (w2, NotReady)
  {
    hide ReadRef;
  }

  /** An invalid spec is turned down for the first of these reasons; the image
      comes before the network. */
  lemma InvalidReferences(w: World, spec: Servers.ServerSpec)
    requires Stalls.InvalidSpec(spec)
    ensures Resolve(w, spec) ==
              (w, Invalid(Other(if spec.imageId == "" && spec.bootVolumeRef.None?
                                then "spec.imageId must be set unless spec.bootVolumeRef is set"
                                else if spec.networkId != ""
                                then "spec.networkId and spec.networkRef are mutually exclusive"
                                else "one of spec.networkId or spec.networkRef must be set")))
  {
  }

  lemma ResolveCallsNothing(w: World, spec: Servers.ServerSpec)
    ensures Resolve(w, spec).0.calls == w.calls && Resolve(w, spec).0.kind == w.kind
  {
    hide ReadRef;
    if spec.networkRef.Some? {
      ReadRefCallsNothing(w, false, spec.networkRef.value);
    }
    if spec.bootVolumeRef.Some? {
      ReadRefCallsNothing(ResolveNetwork(w, spec).0, true, spec.bootVolumeRef.value);
    }
  }

  lemma ReadRefCallsNothing(w: World, bootVolume: bool, name: string)
    ensures ReadRef(w, bootVolume, name).0.calls == w.calls && ReadRef(w, bootVolume, name).0.kind == w.kind
  {
    EnterCallsNothing(w);
  }

  /** A Server waits, or is given up, without a call until its references are
      resolved; then it is created as its spec and they say. */
  lemma CreateServerByReferences(w: World, o: Object)
    requires o.spec.ServerSpec?
    ensures var (spec, (w1, r), out) := (o.spec.server, Resolve(w, o.spec.server), CreateWithRefs(w, o, true));
            && w1.calls == w.calls
            && match r
               case Invalid(e) => Reports(w1, o.status, o, Told(o, false, "InvalidReference", e.text), Done, out)
               case NotReady =>
                 Reports(w1, o.status, o,
                         Told(o, false, "WaitingForReference", "waiting for referenced Network/Volume to become ready"),
                         After(30), out)
               case Resolved(image, network, volume) =>
                 var name := if spec.name != "" then spec.name else o.name;
                 var payload := CreateServer(Servers.CreatePayload(name, spec, image, network, volume));
                 out == CreateNew(w1, o.status, o, payload, true)
  {
    hide Resolve, Sync, CreateNew, Servers.CreatePayload;
    ResolveCallsNothing(w, o.spec.server);
    var (w1, r) := Resolve(w, o.spec.server);
    match r
    case Invalid(e) => SyncCallsNothing(w1, o.status, SetReady(o, false, "InvalidReference", e.text));
    case NotReady => SyncCallsNothing(w1, o.status, SetReady(o, false, "WaitingForReference", WAITING_MESSAGE));
    case Resolved(_, _, _) =>
  }

  /** The other two are created at once, as the re-read object says, whatever the
      view said; an object that has an ID by now, or cannot be read, is not. */
  lemma CreateByReread(w: World, view: Object)
    ensures var ((w1, reread), out) := (FreshRead(w), CreateAfterReread(w, view, true));
            && w1.calls == w.calls
            && match reread
               case NoRead(e) => out == (w1, Failed(e))
               case Current(o) =>
                 if o.status.id != "" then out == (w1, Requeue) else
                 match o.spec
                 case ServerSpec(_) => out == CreateWithRefs(w1, o, true)
                 case VolumeSpec(spec) =>
                   exists p ::
                     && out == CreateNew(w1, view.status, o, CreateVolume(p), true)
                     && Volumes.Requested(p) ==
                          spec.(name := if spec.name != "" then spec.name else o.name,
                                size := if spec.size > 0 then spec.size else 0, existingId := None)
                 case NetworkSpec(spec) =>
                   exists p ::
                     && out == CreateNew(w1, view.status, o, CreateNetwork(p), true)
                     && Networks.Requested(p) ==
                          spec.(name := if spec.name != "" then spec.name else o.name, existingId := None)
                 case ClusterSpec(_) => out.0.calls == w.calls
  {
    hide CreateWithRefs, CreateNew;
    hide Volumes.CreatePayload, Networks.CreatePayload, Volumes.Requested, Networks.Requested;
    EnterCallsNothing(w);
    var reread := FreshRead(w).1;
    if reread.Current? {
      var o := reread.obj;
      match o.spec
      case ServerSpec(_) =>
      case VolumeSpec(spec) => Volumes.CreateAsksForTheSpec(NameOr(spec.name, o.name), spec);
      case NetworkSpec(spec) => Networks.CreateAsksForTheSpec(NameOr(spec.name, o.name), spec);
      case ClusterSpec(_) =>
    }
  }

  // ---- the status

  /** What the status shows of a resource; Network keeps its prefixes while the
      answer has none, and Cluster all but the version. */
  lemma StatusShowsResource(o: Object, res: Resource)
    ensures var s := Observe(o, res).status;
            && s.id == o.status.id && s.condition == o.status.condition && s.generation == o.generation
            && match res
               case Server(server) =>
                 && s.state == DerefString(server.state) && s.mirror.ServerMirror?
                 && s.mirror.powerStatus == DerefString(server.powerStatus)
                 && s.mirror.machineType == server.machineType && |s.mirror.nics| == |server.nics|
                 && forall i | 0 <= i < |server.nics| ::
                      var nic, shown := server.nics[i], s.mirror.nics[i];
                      && shown.networkId == nic.networkId && shown.mac == nic.mac
                      && shown.ipv4 == DerefString(nic.ipv4) && shown.ipv6 == DerefString(nic.ipv6)
               case Volume(volume) =>
                 && s.state == DerefString(volume.state) && s.mirror.VolumeMirror?
                 && s.mirror.size == DerefInt(volume.size) && s.mirror.serverId == DerefString(volume.serverId)
               case Network(network) =>
                 && s.state == network.state
                 && (network.ipv4.None? ==> s.mirror == o.status.mirror)
                 && (network.ipv4.Some? ==>
                       && s.mirror.NetworkMirror? && s.mirror.prefixes == network.ipv4.value.prefixes
                       && s.mirror.gateway == DerefString(network.ipv4.value.gateway))
               case Cluster(cluster) =>
                 && s.state == Aggregated(cluster) && s.mirror.ClusterMirror?
                 && s.mirror.kubernetesVersion == cluster.kubernetesVersion
                 && (cluster.report.None? && o.status.mirror.ClusterMirror? ==>
                       s.mirror == o.status.mirror.(kubernetesVersion := cluster.kubernetesVersion))
                 && (cluster.report.None? && !o.status.mirror.ClusterMirror? ==>
                       s.mirror == ClusterMirror(cluster.kubernetesVersion, false, [], [], []))
                 && (cluster.report.Some? ==>
                       var r := cluster.report.value;
                       && s.mirror.hibernated == DerefBool(r.hibernated)
                       && s.mirror.podRanges == r.podRanges && s.mirror.egressRanges == r.egressRanges
                       && |s.mirror.errors| == |r.errors|
                       && forall i | 0 <= i < |r.errors| ::
                            var e := r.errors[i];
                            s.mirror.errors[i] == DerefString(e.code) + ": " + DerefString(e.message))
  {
  }

  // ---- a whole reconcile

  /** Which part of the lifecycle a reconcile is: deletion goes before all else,
      then the finalizer of an owned object, then the create or the adoption of one
      without an ID. Nothing of it changes with how the result is put: an answer
      400 that says invalid_grant and invalid iat is retried after ten seconds, any
      other error is returned. */
  lemma ReconcileByView(w: World, view: Object)
    ensures var (out, steps) := (Reconcile(w, view), Steps(w, view, true));
            && out.0 == steps.0
            && (if steps.1.Failed? && IsTransientAuthError(steps.1.error) then out.1 == After(10)
                else out.1 == steps.1)
    ensures var (steps, id) := (Steps(w, view, true), DerefString(Existing(view.spec)));
            if view.deleting then steps == ReconcileDelete(w, view, true)
            else if id == "" && !view.finalizer then
              var (w1, failure) := Update(w, view.(finalizer := true));
              steps == (w1, if failure.Some? then Failed(failure.value) else Requeue)
            else if view.status.id != "" then steps == ReconcileExisting(w, view, true)
            else if id != "" then steps == Adopt(w, view, id, true)
            else if view.spec.ClusterSpec? then steps == CreateByName(w, view, view.spec.cluster, true)
            else steps == CreateAfterReread(w, view, true)
  {
    hide ReconcileDelete, ReconcileExisting, Adopt, CreateByName, CreateAfterReread, Update, IsTransientAuthError;
  }
}
