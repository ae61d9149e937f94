/** What happens after a reconcile: it is retried, comes back by itself, or there
    is a good reason to stop. */
module Stalls {
  import opened Common
  import opened StackitErrors
  import opened Environment
  import opened Lifecycle
  import opened Consistency
  import opened Runs
  import Provenance
  import Servers

  /** The image, or the network, is not named exactly once. */
  predicate InvalidSpec(spec: Servers.ServerSpec) {
    || (spec.imageId == "" && spec.bootVolumeRef.None?)
    || (spec.networkId != "" <==> spec.networkRef.Some?)
  }

  /** A referenced object could not be read, for another reason than that it
      does not exist. */
  predicate ReferenceUnreadable(w: World, spec: Servers.ServerSpec) {
    || (spec.networkRef.Some? && NextReply(w).ref.Unreadable?)
    || (spec.bootVolumeRef.Some? &&
        NextReply(if spec.networkRef.Some? then ReadRef(w, false, spec.networkRef.value).0 else w).ref.Unreadable?)
  }

  /** References resolve to an error exactly for an invalid spec or an unreadable
      reference. */
  lemma ResolutionFailsIff(w: World, spec: Servers.ServerSpec)
    ensures Resolve(w, spec).1.Invalid? <==>
              InvalidSpec(spec) || ReferenceUnreadable(w, spec)
  {
  }

  /** A create of an object with an invalid spec, or with an unreadable
      reference. */
  predicate StopsOnReferences(w: World, view: Object) {
    && !view.deleting && view.finalizer && view.status.id == "" && !Adopted(view.spec) && !view.spec.ClusterSpec?
    && FreshRead(w).1.Current?
    && FreshRead(w).1.obj.spec.ServerSpec? && FreshRead(w).1.obj.status.id == ""
    && var spec := FreshRead(w).1.obj.spec.server;
       InvalidSpec(spec) || ReferenceUnreadable(FreshRead(w).0, spec)
  }

  lemma CreateNewGoesOn(w: World, before: Status, o: Object, payload: CreatePayload)
    ensures var r := CreateNew(w, before, o, payload, true).1; r != Done && (r.After? ==> r.seconds > 0)
  {
  }

  lemma CreateGoesOn(w: World, view: Object)
    ensures var (w1, r) := CreateAfterReread(w, view, true);
            && (r.After? ==> r.seconds > 0)
            && (r == Done ==>
                  && FreshRead(w).1.Current?
                  && FreshRead(w).1.obj.spec.ServerSpec? && FreshRead(w).1.obj.status.id == ""
                  && Resolve(FreshRead(w).0, FreshRead(w).1.obj.spec.server).1.Invalid?)
  {
    var (w1, reread) := FreshRead(w);
    if reread.Current? && reread.obj.status.id == "" {
      var o := reread.obj;
      match o.spec
      case ServerSpec(spec) =>
        var (w2, resolution) := Resolve(w1, spec);
        if resolution.Resolved? {
          var payload := ServerPayload(o, resolution.imageId, resolution.networkId, resolution.bootVolumeId);
          CreateNewGoesOn(w2, o.status, o, payload);
        }
      case VolumeSpec(_) => CreateNewGoesOn(w1, view.status, o, VolumePayload(o));
      case NetworkSpec(_) => CreateNewGoesOn(w1, view.status, o, NetworkPayload(o));
      case ClusterSpec(_) =>
    }
  }

  lemma ExistingGoesOn(w: World, view: Object)
    ensures var r := ReconcileExisting(w, view, true).1; r != Done && (r.After? ==> r.seconds > 0)
  {
  }

  lemma DeleteGoesOn(w: World, view: Object)
    requires HistoryConsistent(Enter(w)) && HistoryConsistent(Enter(Enter(w)))
    requires InHistory(Enter(w), view) && InHistory(Enter(Enter(w)), view) && view.deleting
    ensures var (w1, r) := ReconcileDelete(w, view, true);
            && (r.After? ==> r.seconds > 0)
            && (r == Done ==> !view.finalizer || w1.obj.None?)
  {
    if view.finalizer {
      if view.status.id == "" {
        WriteNeedsCurrentView(Enter(w), NextReply(w), view, view.(finalizer := false));
      } else {
        var (w1, got) := Get(w, view.status.id);
        if got.NotShown? && IsNotFound(got.error) {
          GetEnters(w, view.status.id);
          WriteNeedsCurrentView(Enter(w1), NextReply(w1), view, view.(finalizer := false));
        }
      }
    }
  }

  /** A failed read leaves the world as the environment made it. */
  lemma GetEnters(w: World, id: string)
    ensures Get(w, id).1.NotShown? ==> Get(w, id).0 == Enter(w)
  {
  }

  /** No silent stall, for every kind, view and script: a reconcile ends without
      error, requeue or positive delay only if the object is being deleted and
      the operator is through with it, or a Server's references cannot be
      resolved. An error turned into a delay by the demotion still comes back. */
  lemma NoSilentStall(w: World, view: Object)
    requires Consistent(w) && InHistory(w, view)
    ensures var (w1, r) := Reconcile(w, view);
            && (r.After? ==> r.seconds > 0)
            && (r == Done ==>
                  || (view.deleting && (!view.finalizer || w1.obj.None?))
                  || StopsOnReferences(w, view))
  {
    hide ReconcileDelete, CreateAfterReread, ReconcileExisting, Resolve, InvalidSpec, ReferenceUnreadable;
    if view.deleting {
      EnterDrifts(w);
      EnterDrifts(Enter(w));
      DeleteGoesOn(w, view);
    } else if !Adopted(view.spec) && !view.finalizer {
    } else if view.status.id == "" {
      if !Adopted(view.spec) && !view.spec.ClusterSpec? {
        CreateGoesOn(w, view);
        if CreateAfterReread(w, view, true).1 == Done {
          ResolutionFailsIff(FreshRead(w).0, FreshRead(w).1.obj.spec.server);
          assert view.finalizer;
        }
      }
    } else {
      ExistingGoesOn(w, view);
    }
  }

  /** The write of the InvalidReference report goes through, or nothing has to be
      written. */
  predicate Reported(w: World, o: Object)
    requires o.spec.ServerSpec?
  {
    var (w1, r) := Resolve(w, o.spec.server);
    r.Invalid? && Sync(w1, o.status, SetReady(o, false, "InvalidReference", r.error.text), true).1.None?
  }

  lemma CreateStopsIff(w: World, o: Object)
    requires o.spec.ServerSpec?
    ensures CreateWithRefs(w, o, true).1 == Done <==>
              (InvalidSpec(o.spec.server) || ReferenceUnreadable(w, o.spec.server)) && Reported(w, o)
  {
    hide CreateNew, Sync, InvalidSpec, ReferenceUnreadable, Resolve;
    ResolutionFailsIff(w, o.spec.server);
    var (w1, r) := Resolve(w, o.spec.server);
    if r.Resolved? {
      CreateNewGoesOn(w1, o.status, o, ServerPayload(o, r.imageId, r.networkId, r.bootVolumeId));
    }
  }

  lemma RereadStopsIff(w: World, view: Object)
    ensures CreateAfterReread(w, view, true).1 == Done <==>
              var (w1, reread) := FreshRead(w);
              && reread.Current? && reread.obj.status.id == "" && reread.obj.spec.ServerSpec?
              && (InvalidSpec(reread.obj.spec.server) || ReferenceUnreadable(w1, reread.obj.spec.server))
              && Reported(w1, reread.obj)
  {
    hide CreateWithRefs, CreateNew, InvalidSpec, ReferenceUnreadable, Reported, Enter;
    var (w1, reread) := FreshRead(w);
    if reread.Current? && reread.obj.status.id == "" {
      var o := reread.obj;
      match o.spec
      case ServerSpec(_) => CreateStopsIff(w1, o);
      case VolumeSpec(_) => CreateNewGoesOn(w1, view.status, o, VolumePayload(o));
      case NetworkSpec(_) => CreateNewGoesOn(w1, view.status, o, NetworkPayload(o));
      case ClusterSpec(_) =>
    }
  }

  /** Exactly when a reconcile that is no deletion stops for good, for every kind,
      from any view and under any script: a Server's references cannot be
      resolved, and the report of that meets no error. */
  lemma StopsIff(w: World, view: Object)
    requires Consistent(w) && InHistory(w, view) && !view.deleting
    ensures Reconcile(w, view).1 == Done <==> StopsOnReferences(w, view) && Reported(FreshRead(w).0, FreshRead(w).1.obj)
  {
    hide ReconcileExisting, CreateAfterReread, CreateByName, Adopt;
    hide FreshRead, InvalidSpec, ReferenceUnreadable, Reported;
    if !Adopted(view.spec) && !view.finalizer {
    } else if view.status.id != "" {
      ExistingGoesOn(w, view);
    } else if Adopted(view.spec) {
      AdoptGoesOn(w, view, Existing(view.spec).value);
    } else if view.spec.ClusterSpec? {
      CreateByNameGoesOn(w, view);
    } else {
      RereadStopsIff(w, view);
    }
  }

  lemma AdoptGoesOn(w: World, view: Object, id: string)
    ensures Adopt(w, view, id, true).1 != Done
  {
  }

  lemma CreateByNameGoesOn(w: World, view: Object)
    requires view.spec.ClusterSpec?
    ensures CreateByName(w, view, view.spec.cluster, true).1 != Done
  {
    hide Upsert, Get, Sync;
  }

  /** The documented reason is an invalid spec. The code also stops, with no
      retry, when a referenced object merely could not be read: from a current
      view, with calls that go through, the reconcile of a new Server with an
      otherwise valid spec ends for good exactly if a reference was unreadable. */
  lemma StopsExactlyOnUnreadableReference(w: World, view: Object)
    requires Consistent(w) && w.obj == Some(view) && w.kind == KServer
    requires !view.deleting && view.finalizer && view.status.id == ""
    requires !InvalidSpec(view.spec.server)
    requires |w.future| >= 5 && Undisturbed(w.future)
    ensures Reconcile(w, view).1 == Done <==> ReferenceUnreadable(FreshRead(w).0, view.spec.server)
  {
    hide Reconcile, InvalidSpec, ReferenceUnreadable, Resolve;
    StopsIff(w, view);
    var (w1, reread) := FreshRead(w);
    assert w1 == w.(future := w.future[1..]) && reread == Current(view);
    var spec := view.spec.server;
    ResolutionFailsIff(w1, spec);
    CalmResolution(w1, spec);
    var (w2, r) := Resolve(w1, spec);
    if r.Invalid? {
      WriteSucceeds(w2, view.status, SetReady(view, false, "InvalidReference", r.error.text));
    }
  }

  lemma CalmResolution(w: World, spec: Servers.ServerSpec)
    requires |w.future| >= 4 && Undisturbed(w.future)
    ensures var w1 := Resolve(w, spec).0;
            && w1 == w.(future := w1.future, refs := w1.refs) && |w1.future| >= 2
            && Undisturbed(w1.future)
  {
  }

  lemma WriteSucceeds(w: World, before: Status, o: Object)
    requires w.obj.Some? && w.obj.value.version == o.version
    requires w.future != [] && w.future[0].moves == [] && w.future[0].reply.error.None?
    ensures Sync(w, before, o, true).1.None?
  {
  }

  /** A run that gets there: a new Server with a valid spec gets its finalizer;
      then a reference cannot be read once, and the Server is given up. */
  lemma GivesUpOnUnreadableReference() returns (w: World, events: seq<Event>, script: seq<Slot>)
    ensures Initial(w) && w.kind == KServer && w.obj.value.spec.ServerSpec? && !InvalidSpec(w.obj.value.spec.server)
    ensures Undisturbed(script)
    ensures var f := Run(w, events).(future := script);
            && f.obj.Some? && !f.obj.value.deleting && f.obj.value.spec == w.obj.value.spec
            && ReferenceUnreadable(FreshRead(f).0, f.obj.value.spec.server)
            && Reconcile(f, f.obj.value).1 == Done
  {
    var boot := Servers.BootVolumeSpec(0, "", None);
    var spec := Servers.ServerSpec("", "c1.2", "", "image", boot, None, "", Some("net"), "", [], [], map[], "", "");
    var o := Object(0, 1, false, false, "s", ServerSpec(spec), Status("", "", 0, ServerMirror("", "", []), None));
    w := World(KServer, Some(o), [o], map[], {}, {}, None, {}, [], {}, {}, []);
    events := [Reconciled(0, [Slot([], ACCEPTED)])];
    var slot, unreadable := Slot([], ACCEPTED), Slot([], ACCEPTED.(ref := Unreadable(Other("timeout"))));
    script := [slot, unreadable, slot, slot, slot];
    FinalizerRun(w, o);
    hide Reconcile, Run;
    var f := Run(w, events).(future := script);
    var view := f.obj.value;
    assert FreshRead(f).0 == f.(future := script[1..]);
    StopsExactlyOnUnreadableReference(f, view);
  }

  lemma FinalizerRun(w: World, o: Object)
    requires Initial(w) && w.obj == Some(o) && !Adopted(o.spec)
    ensures var f := Run(w, [Reconciled(0, [Slot([], ACCEPTED)])]);
            f.obj == Some(o.(version := 1, finalizer := true)) && Consistent(f) && f.kind == w.kind
  {
    var events := [Reconciled(0, [Slot([], ACCEPTED)])];
    FinalizerIsAdded(w, o);
    Provenance.RunKeeps(w, events);
    hide Provenance.JustifiedStatus;
    var w1 := Step(w, events[0]);
    assert Run(w, events) == w1 by {
      assert Run(w1, events[1..]) == w1;
    }
  }
}
