# A verified model of the STACKIT operator's reconcilers

The operator keeps four kinds of custom resources (Server, Volume, Network and
Cluster) in line with resources in the STACKIT cloud. This project models its
four reconcilers, the shared helpers in `lifecycle.go`, the drift comparisons and
payload builders they rely on, and the error classification that steers them,
and proves what they guarantee over whole runs.

## How it is built

**Two worlds and a script.** `Environment.World` holds what the API server
stores (the object and every version it ever had, any of which a cached read may
return) and what lives in STACKIT. Everything the operator cannot foresee is
data: before each call the environment makes the moves of the next slot (users
edit or delete the object, resources change, vanish or appear), and the slot's
reply says how the call goes, including calls that fail after taking effect. A
statement for all scripts is a statement about all interleavings. Some fields of
the world are bookkeeping that no operation reads: `mine` (live resources the
operator made), `inFlight` (a created ID not yet stored), `lost` (created IDs the
operator was never told or failed to store), `calls`, `seen` and `refs` (what was
read from STACKIT and from referenced objects).

**One protocol, four kinds.** `Lifecycle` states what a reconcile does to the
world; where the four controllers differ (state names, intervals, the fresh read
before a create, the snapshot's place, tolerance of 409), the kind decides.
`Controllers` has the same steps in the controllers' own form: a custom resource
updated in place, clients called one after another, early returns. Each of its
methods is proved to change the world and return exactly as `Lifecycle` says, so
every theorem about `Lifecycle.Reconcile` is one about `Controllers.Reconciler.Reconcile`.

**Comparisons and patches.** `Labels`, `Volumes`, `Networks`, `Servers` and
`Clusters` hold the comparisons and builders as methods with the loops and local
variables of the source, each proved against a function, and the lemmas that make
a diff and its patch cancel out.

**Theorems.**

| file | what it proves |
|---|---|
| `ownership.dfy`, `runs.dfy`, `losses.dfy` | orphan accounting, finalizer safety, stale-view safety and well-formed creates over every run of owned Servers, Volumes and Networks; exactly when a resource gets lost, and that it never does without a failure |
| `clusternames.dfy` | the same accounting for Clusters, without a fresh read, across edits of `spec.name`, and exactly when a name gets lost |
| `adoption.dfy` | adopted objects are only looked at, deletion included, and get their verdict in two reconciles |
| `provenance.dfy` | a stored Ready=True, and all the status shows with it, comes from a matching read, made by the reconcile that wrote it |
| `elision.dfy` | exactly when a reconcile that skips unneeded status writes ends like one that always writes; self-triggering ends |
| `stalls.dfy` | no reconcile ends silently without a reason |
| `outcomes.dfy` | what a reconcile does and says by what it reads, with the states, status codes, reasons, messages and delays written out, from any view and under any script |
| `deletion.dfy`, `convergence.dfy`, `disturbances.dfy` | deletion terminates and all four kinds converge, with explicit bounds; a resource that is gone is made anew; outdated views and faults included |

## Assumptions

- Reconciles of one object are serialised, and one object name has one
  incarnation. Between a fresh read and the create that follows, the environment
  may still move.
- Writes to the API server need the current version, so an update of the finalizer
  finds all other fields as it carries them. A write may land and still be reported
  as failed. The operator's finalizer is the only one. Users do not write the status
  or that finalizer, and do not change the kind or the adopt field. `metadata.name`
  is not empty.
- IDs given by STACKIT are not empty and never reused; cluster names may be. A
  STACKIT read answers 404 exactly for what does not exist. A call to STACKIT may
  fail after taking effect.
- Cached reads may return any version ever stored. Only the Cluster theorem needs
  the cache not to go back in time, which is stated as a hypothesis
  (`ClusterNames.MonotoneViews`).
- Convergence is about a STACKIT that settles (`Convergence.Settles`): after an accepted
  call it shows the resource in any way for a bounded number of reads in transitional
  states, and then as that call makes it. References of a Server are ready, pool names
  of a Cluster are distinct, and nobody edits or deletes the object. In
  `Convergence.Converges` every reconcile starts from the stored version, no call
  fails, and the resource changes by itself only before the first call of a
  reconcile. A resource that is gone when a reconcile begins is forgotten and made
  anew; one that is there does not vanish during that reconcile's read.
- `Disturbances` drops the first of these for two sorts of outdated views: those that
  ask for the same and know the ID of the live resource, and those nothing comes of
  (`Disturbances.Blind`: without the finalizer, with the ID of a resource that is gone,
  or, except for Cluster, without the ID that is stored by now). A reconcile from any
  other outdated view, such as one with an older spec, counts as a fault. In a fault any
  view is allowed, any call may fail or take effect all the same, and the resource may
  change or vanish at any time.
- Deletion is about a STACKIT that refuses and dawdles finitely often
  (`Deletion.Fair`); there every reconcile starts from the stored version, and reads and
  status writes go through. `Disturbances.DeletionTerminatesAfterFaults` allows any
  number of reconciles before that in which neither need be so.
- `SetStatusCondition` keeps one Ready entry; nil and empty collections are the same.

## Where code and comments disagree, and where a promise has limits

The model follows the code in each case.

- `invalidReference` is documented for permanent failures
  (`internal/controller/server_controller.go:222-225`), but is also reached, with no
  requeue, when reading a referenced object fails for any reason other than
  not-found. `Stalls.StopsIff` gives the exact condition,
  `Stalls.GivesUpOnUnreadableReference` a run that ends there.
- Volume and Network take the status snapshot of a create before they re-read the
  object, Server after. From an outdated view the report of a refused create can
  therefore be dropped: `Elision.OutdatedSnapshotHidesFailure` gives a run that gets
  there, `Elision.ElisionExactForReconciles` the exact condition for every kind and
  view.
- Cluster relies on its upsert instead of a fresh read. A calm reconcile from an
  outdated view can still lose the name of a cluster it creates, until the next
  create picks it up (`ClusterNames.CalmReconcileLosesIff`, `NextCreateReattaches`;
  `OutdatedViewLosesName` gives a run).
- `nodepoolsEqual` is right for every observed list exactly when the desired names
  are pairwise distinct (`Clusters.ComparisonIsExactIffNamesDistinct`), and does not
  compare labels and `allowSystemComponents`, which the payload carries
  (`Clusters.ExtrasAreNotCompared`).
- The comment on `maintenanceEqual` says that an unset desired window equals only an
  unset observed one; the code accepts any.
- Network takes an answer to its create without an ID at face value, the other IaaS
  kinds report an error. The created resource is accounted as lost either way.
- A 409 on deletion is waited out by Volume, Network and Cluster and is an error for
  Server (`Deletion.OneRound`).

## Model

| member | source | states |
|---|---|---|
| Labels.LabelsEqual | internal/controller/lifecycle.go:60-71 | true iff every desired label is observed with the same printed value; extra observed labels never matter |
| Labels.ToInterfaceMap | internal/stackit/servers.go:99-105 | same keys, each value boxed |
| Labels.SendingLabelsCovers | internal/controller/lifecycle.go:60-71 | after the desired labels are sent they compare equal, whether STACKIT merges or replaces; a label difference implies there is something to send |
| Labels.CoversIsSubmap | internal/controller/lifecycle.go:60-71 | however the observed labels are typed, labels compare equal iff the desired ones are among what the observed ones print |
| StackitErrors.ErrorsByCodeAndBody | internal/stackit/errors.go:13-67 | not found is 404 and conflict 409, AlreadyExists is a 409 whose body contains that word, a transient authentication error a 400 whose body contains both invalid_grant and invalid iat; nothing else is any of them |
| Volumes.PatchClearsMetadataDrift | internal/controller/volume_controller.go:254-281 | applying the chosen update leaves no metadata drift and changes no field that was not drifted |
| Volumes.PatchIsMinimal | internal/controller/volume_controller.go:254-281 | the update is empty iff nothing drifted; each field it sets is non-empty and differs from what was observed |
| Volumes.CallSettlesOneGroup | internal/controller/volume_controller.go:242-285 | no call iff no group drifted; each call lowers the number of drifted groups by exactly one |
| Volumes.TwoCallsSettle | internal/controller/volume_controller.go:242-285 | a resize and then a metadata update settle any volume; no third call is ever due |
| Volumes.CreatedVolumeHasNoDrift | internal/stackit/volumes.go:14-43 | a volume that echoes its create payload shows no drift against the spec it was built from |
| Volumes.NoDriftIffAsCreated | internal/controller/volume_controller.go:242-285 | nothing is corrected iff the volume is as a create from today's spec would make it: each field that is asked for has that value |
| Volumes.ResizeIff | internal/controller/volume_controller.go:246-252 | a resize goes out iff a positive size is asked for that the volume does not have, and to that size |
| Volumes.CreateAsksForTheSpec | internal/stackit/volumes.go:14-43 | the spec can be read back from the payload, each field from its own, and what the spec leaves empty is left out |
| Volumes.BuildVolumeCreatePayload | internal/stackit/volumes.go:14-43 | the payload carries exactly the fields the spec sets |
| Volumes.BuildVolumeUpdatePayload | internal/stackit/volumes.go:48-63 | sets exactly the fields whose argument is not the "leave alone" value |
| Volumes.ChooseAction | internal/controller/volume_controller.go:242-285 | the comparison with its sentinel locals picks exactly the specified call: size first, then metadata; no sentinel collides with a value to send |
| Networks.PatchClearsDrift | internal/controller/network_controller.go:242-277 | one update clears the drift of all five fields and changes no other |
| Networks.PatchIsMinimal | internal/controller/network_controller.go:242-277 | the update is empty iff nothing drifted; each field it sets differs from what was observed |
| Networks.CreatedNetworkHasNoDrift | internal/stackit/networks.go:14-56 | a network that echoes its create payload shows no drift |
| Networks.NoDriftIffAsCreated | internal/controller/network_controller.go:238-281 | nothing is corrected iff the network is as a create from today's spec would make it: each field that is asked for has that value |
| Networks.CreateAsksForTheSpec | internal/stackit/networks.go:14-56 | the spec, both subnets included, can be read back from the payload, and what the spec leaves empty is left out |
| Networks.BuildSubnet | internal/stackit/networks.go:31-49 | prefix length and name servers, and the VPC range if set, for IPv4 and IPv6 alike |
| Networks.BuildNetworkCreatePayload | internal/stackit/networks.go:14-56 | the payload carries exactly the fields the spec sets |
| Networks.BuildNetworkUpdatePayload | internal/stackit/networks.go:60-78 | sets exactly the fields whose argument is not the "leave alone" value |
| Networks.ChooseUpdate | internal/controller/network_controller.go:238-281 | the comparison with its sentinel locals picks exactly the specified update |
| Servers.PatchClearsMetadataDrift | internal/controller/server_controller.go:339-356 | the metadata update clears name and label drift and changes nothing else |
| Servers.PatchIsMinimal | internal/controller/server_controller.go:339-356 | the update is empty iff nothing drifted; each field it sets differs from what was observed |
| Servers.CallSettlesOneGroup | internal/controller/server_controller.go:307-360 | no call iff no group drifted; each call lowers the number of drifted groups by exactly one, so three calls are enough |
| Servers.CallsByFields | internal/controller/server_controller.go:311-337 | resize iff a machine type is asked for that the server does not have; else stop iff powerState is Inactive and the server RUNNING, start iff it is Active or empty and the server STOPPED |
| Servers.CreatedServerOnlyLacksPower | internal/stackit/servers.go:22-83 | a server that echoes its create payload can differ from the spec only in its power state |
| Servers.NoDriftIffAsCreated | internal/controller/server_controller.go:307-360 | nothing is corrected iff name, machine type and labels are as a create from today's spec would make them and the power state is not the opposite of the one asked for |
| Servers.CreateAsksForTheSpec | internal/stackit/servers.go:22-83 | the spec can be read back from the payload, each field from its own; image, network and boot volume are the resolved ones, and what is empty is left out |
| Servers.BuildBootVolume | internal/stackit/servers.go:56-80 | an existing volume wins over the image; a volume from the image is described only if something is asked of it |
| Servers.BuildCreatePayload | internal/stackit/servers.go:22-83 | the payload for the resolved image, network and boot volume carries exactly the fields the spec sets |
| Servers.BuildUpdatePayload | internal/stackit/servers.go:88-97 | sets exactly the fields whose argument is not the "leave alone" value |
| Servers.ChooseAction | internal/controller/server_controller.go:307-360 | size, then power, then metadata: exactly the specified call |
| Clusters.StringSlicesEqualUnordered | internal/controller/cluster_controller.go:451-468 | true iff the two lists are equal as multisets |
| Clusters.NodepoolsEqual | internal/controller/cluster_controller.go:379-412 | true iff the lengths agree and each desired pool agrees with the last observed pool of its name |
| Clusters.Pigeonhole | internal/controller/cluster_controller.go:379-412 | n distinct indices below n are a permutation: why equal lengths and successful lookups give a bijection |
| Clusters.NodepoolsMatchIsMatching | internal/controller/cluster_controller.go:379-412 | for distinct desired names the comparison holds iff the observed pools are a permutation of the desired ones, agreeing on every compared field |
| Clusters.RepeatedNamesMislead | internal/controller/cluster_controller.go:383-390 | for a repeated name, observed pools on which the comparison gives the wrong answer |
| Clusters.ComparisonIsExactIffNamesDistinct | internal/controller/cluster_controller.go:379-412 | the comparison is right for all observed pools iff the desired names are pairwise distinct |
| Clusters.ExtrasAreNotCompared | internal/controller/cluster_controller.go:387-410 | changing pool labels or allowSystemComponents never changes the verdict |
| Clusters.SameTimeOfDayIsDayArithmetic | internal/controller/cluster_controller.go:445-449 | same time of day iff the instants lie a whole number of days apart, also before 1970 and in any zone |
| Clusters.ClockReads | internal/controller/cluster_controller.go:445-449 | the clock of an instant that lies h hours, m minutes and s seconds after any midnight reads h:m:s |
| Clusters.MaintenanceIgnoresDays | internal/controller/cluster_controller.go:420-437 | shifting any end of either window by whole days never changes the verdict |
| Clusters.UpsertFixedPoint | internal/controller/cluster_controller.go:246-266 | a cluster that comes back as submitted, up to order of pools and zones, defaults and days, shows no drift |
| Clusters.NoDriftIffEchoed | internal/controller/cluster_controller.go:246-266 | for distinct names nothing is resubmitted iff version, every field of every pool and the window are those of today's payload, up to order, defaults and days |
| Clusters.PayloadAsksForTheSpec | internal/stackit/clusters.go:15-69 | version, window and every pool of the spec can be read back from the payload, labels and allowSystemComponents included; numbers beyond 32 bits wrap around |
| Clusters.BuildNodepools | internal/stackit/clusters.go:37-69 | one pool per spec in order, 32-bit truncation included |
| Clusters.BuildClusterPayload | internal/stackit/clusters.go:15-35 | version, pools and maintenance window of the spec |
| Clusters.ChooseUpsert | internal/controller/cluster_controller.go:246-266 | resubmits the whole payload iff version, pools or window differ |
| Consistency.WriteNeedsCurrentView | internal/controller/lifecycle.go:84-103 | a write based on any cached view goes through only if that view is exactly what is stored |
| Ownership.ResolveKeeps | internal/controller/server_controller.go:162-220 | references resolve to the network ID the spec names or this reconcile's read of the Network shows, never both, and to the volume this reconcile's read shows as AVAILABLE |
| Ownership.RequestedIsWellFormed | internal/stackit/servers.go:56-80 | what is requested in that way has a network and a boot source; the branch that would boot from an empty image ID is never taken |
| Ownership.CreateAfterRereadKeeps | internal/controller/server_controller.go:94-157 | a create after the fresh read keeps the ownership invariant, from any view |
| Ownership.ReconcileExistingKeeps | internal/controller/server_controller.go:236-301 | forgetting an ID only after a 404 keeps the invariant, from any view |
| Ownership.ReconcileDeleteKeeps | internal/controller/volume_controller.go:287-345 | removing the finalizer only without an ID or after a 404 keeps the invariant, from any view |
| Ownership.ReconcileKeeps | internal/controller/server_controller.go:74-92 | every reconcile keeps: recorded live IDs are the stored one and guarded by the finalizer, every live resource made is stored, in flight or lost, every call is safe |
| Runs.NoUnaccountedOrphans | internal/controller/server_controller.go:94-157 | in every run each live resource the operator made is the stored one or accounted as lost; if nothing was lost there is at most one |
| Runs.ObjectOutlivesItsResources | internal/controller/server_controller.go:362-410 | in every run the object leaves only when no resource it ever recorded lives; a live recorded resource is the stored one and the finalizer is there |
| Runs.EveryCallIsSafe | internal/controller/server_controller.go:94-360 | every update, resize, start, stop and delete of a run hit the stored resource or one already gone; every server was created just as some stored version asks, with the network and AVAILABLE volume that were read under the names it refers to |
| Losses.ReconcileLosesIff | internal/controller/network_controller.go:119-147 | from any view, a reconcile loses the one new resource its own create call made iff the operator is not told its ID or the following status write does not land; it loses nothing else and forgets no earlier loss |
| Losses.CalmReconcileLosesNothing | internal/controller/lifecycle.go:130-135 | from any view, stale ones included: with no failed call, no answer without an ID and no move during the reconcile, nothing is lost |
| Losses.CalmRunsLoseNothing | internal/controller/server_controller.go:94-157 | in every run whose reconciles are calm, from arbitrarily stale views and with any moves between them, nothing is lost and at most one resource lives |
| Adoption.ReconcileOnlyObserves | internal/controller/volume_controller.go:67-120 | a reconcile of an adopted object makes no mutating call and adds no finalizer; at most two slots of the script pass, and STACKIT ends as exactly their moves make it |
| Adoption.AdoptedRunsOnlyObserve | internal/controller/cluster_controller.go:67-89 | in every run, deletion included, no mutating call and no finalizer; STACKIT ends as the moves outside reconciles and those of the slots used up, in their order, make it |
| Adoption.AdoptedReport | internal/controller/volume_controller.go:96-119 | a reconcile of an adopted object in which nothing fails changes its status only: NotFound after the error interval, ID and mirror at first sight, else the verdict |
| Adoption.AdoptsInTwoReconciles | internal/controller/network_controller.go:93-117 | the first good reconcile that finds the adopted resource stores its ID and comes back, the second stores what it reads: Ready iff it is in a Ready state, drift or not |
| ClusterNames.OutdatedViewAsksForTheStoredName | internal/controller/cluster_controller.go:84-86 | with a cache that never goes back, a view without a name asks for the very name that is stored meanwhile, if any |
| ClusterNames.ReconcileKeeps | internal/controller/cluster_controller.go:67-89 | a reconcile from a view no older than the ones before keeps the accounting of cluster names |
| ClusterNames.ClusterRunsAreAccounted | internal/controller/cluster_controller.go:91-159 | in every run, across edits of spec.name, each live cluster made carries the stored name or a lost one, at most one lives if nothing was lost, none outlives the object unless lost, and creates go out under the stored name or when there is none |
| ClusterNames.NextCreateReattaches | internal/controller/cluster_controller.go:125-158 | a lost name still asked for is stored again by the next create, on acceptance and on AlreadyExists alike, without a second cluster |
| ClusterNames.EchoedClusterIsLeftAlone | internal/controller/cluster_controller.go:161-238 | an echoed cluster with distinct pool names triggers no call and no requeue, whatever the script |
| ClusterNames.ReconcileLosesIff | internal/controller/cluster_controller.go:91-159 | from any view the cache may return, a reconcile loses the name of its upsert iff that makes a cluster and the name is not stored in the end; it loses no other name |
| ClusterNames.CalmReconcileLosesIff | internal/controller/cluster_controller.go:119-158 | with no failed call and no move, a name is lost iff a new cluster is made from an outdated view under a name that is not the stored one; never from the current view |
| ClusterNames.OutdatedViewLosesName | internal/controller/cluster_controller.go:119-158 | a run of undisturbed reconciles with a monotone cache that loses the name |
| Provenance.VerdictIsJustified | internal/controller/volume_controller.go:213-228 | the one place that sets Ready=True writes state, mirror, message and generations of a read in that kind's Ready state, without drift against the spec of that generation if owned |
| Provenance.ReconcileKeeps | internal/controller/cluster_controller.go:161-238 | no reconcile, from any view, keeps an unjustified Ready; the only Ready status it newly stores is its verdict on what it has itself just read |
| Provenance.ReadyIsNeverMadeUp | internal/controller/server_controller.go:280-298 | in every run of every kind a stored Ready=True of generation g belongs to a resource read under the stored ID in a Ready state, which is the state, mirror, message and observed generation the status shows, and which, if owned, matched the spec of generation g |
| Stalls.ResolutionFailsIff | internal/controller/server_controller.go:162-220 | references resolve to an error iff the spec names image or network not exactly as demanded, or a reference is unreadable |
| Stalls.NoSilentStall | internal/controller/server_controller.go:62-234 | a reconcile of any kind from any view ends without error, requeue or positive delay only after a finished deletion, for a deletion without the finalizer, or on unresolvable references; demotion included |
| Stalls.StopsIff | internal/controller/server_controller.go:94-234 | from any view and under any script, a reconcile of any kind that is no deletion stops for good iff a new Server's references cannot be resolved and the report meets no error |
| Stalls.StopsExactlyOnUnreadableReference | internal/controller/server_controller.go:222-234 | for a valid spec and calls that go through, a new Server is given up iff a reference could not be read |
| Stalls.GivesUpOnUnreadableReference | internal/controller/server_controller.go:181-188 | a run from a new Server with a valid spec that ends that way |
| Outcomes.ServerByState | internal/controller/server_controller.go:257-300 | a server in one of the 18 transitional states gets no call, is reported Transitioning and read again after 30 s; in ERROR no call, its message and 60 s; in any other state its drift is corrected by one call, or it is reported Active, Inactive or Unknown for 300 s |
| Outcomes.VolumeByState | internal/controller/volume_controller.go:189-236 | the same for 12 transitional states (10 s), every state that begins with ERROR, Available and Attached; an adopted volume is never corrected |
| Outcomes.NetworkByState | internal/controller/network_controller.go:183-230 | the same for 3 transitional states (10 s), FAILED, Created and Updated |
| Outcomes.ClusterByState | internal/controller/cluster_controller.go:191-237 | the same for 5 transitional states (30 s), STATE_UNHEALTHY, Healthy and Hibernated |
| Outcomes.ExistingNotShown | internal/controller/volume_controller.go:164-187 | a read that fails otherwise than with 404 is returned and nothing is written; after a 404 an owned ID is cleared at once, an adopted one kept for 60 s; no call |
| Outcomes.AdoptByRead | internal/controller/cluster_controller.go:96-117 | adopting stores the ID and what was read and comes back; a 404 is reported and waited out for 60 s, any other error returned; no call |
| Outcomes.DeleteByState | internal/controller/cluster_controller.go:291-325 | no call iff the resource is shown as DELETING or STATE_DELETING, else one deletion of that ID; a 404 to it, or a 409 for other kinds than Server, is waited out, any other error returned |
| Outcomes.DeleteWithoutResource | internal/controller/network_controller.go:286-311 | without the finalizer nothing happens; without an ID, or after a 404, the finalizer is removed; another failed read is returned; no call |
| Outcomes.CreateByAnswer | internal/controller/volume_controller.go:130-157 | one create; an accepted one is stored with its ID as Creating, a refused one reported as CreateFailed and returned; an answer without an ID is an error except for Network |
| Outcomes.CreateClusterByAnswer | internal/controller/cluster_controller.go:119-159 | one upsert of the payload under spec.name or the object's name; a 409 with AlreadyExists is answered by a read whose answer is stored |
| Outcomes.ResolutionByReferences | internal/controller/server_controller.go:175-220 | for a valid spec: the network is read before the boot volume; resolved iff the network has an ID and the boot volume an ID and state AVAILABLE; a failed read is passed on, anything else waited for |
| Outcomes.InvalidReferences | internal/controller/server_controller.go:162-194 | an invalid spec is turned down without a read, for the image first, then for two networks or none |
| Outcomes.CreateServerByReferences | internal/controller/server_controller.go:106-131 | no call until references are resolved: InvalidReference ends the reconcile, WaitingForReference comes back after 30 s; then a create with the resolved IDs |
| Outcomes.CreateByReread | internal/controller/network_controller.go:119-130 | what is created follows the re-read object, whatever the view said; no call if the re-read fails or shows an ID |
| Outcomes.StatusShowsResource | internal/controller/cluster_controller.go:328-345 | each status field shows its own field of what was read, for every kind, NIC by NIC and error by error; Network and Cluster keep what an answer leaves out |
| Outcomes.ReconcileByView | internal/controller/volume_controller.go:54-89 | deletion first, then the finalizer of an owned object, then adoption or create, then the existing resource; only a transient authentication error is turned into a delay of 10 s |
| Elision.ElisionExact | internal/controller/lifecycle.go:137-144 | skipping differs from writing exactly when the snapshot equals the new status, the version written to has another status, and the write would have gone through |
| Elision.ElisionRefinesExisting | internal/controller/volume_controller.go:159-236 | from any view, reconcileExisting with and without skipping ends in the same status, resources and calls |
| Elision.ElisionRefinesDelete | internal/controller/volume_controller.go:287-345 | the same for reconcileDelete |
| Elision.ElisionExactForReconciles | internal/controller/lifecycle.go:137-144 | for every kind, view and script, a reconcile that skips unneeded writes ends as one that always writes, except exactly when a Volume or Network create wants to report what its early snapshot already says, the re-read status says otherwise, and the write would have landed |
| Elision.OutdatedSnapshotHidesFailure | internal/controller/volume_controller.go:91-142 | a run from a new Volume and a stale view from which a reconcile drops its CreateFailed report |
| Elision.SettledReconcile | internal/controller/server_controller.go:236-301 | a reconcile of a settled resource stores its verdict, and nothing if that is stored already |
| Elision.SecondReconcileIsSilent | internal/controller/lifecycle.go:137-144 | the second reconcile of a settled resource writes nothing and calls nothing, so watch-triggered reconciles die out |
| Deletion.OneRound | internal/controller/network_controller.go:283-341 | one reconcile of a deleted object: gone with the resource, at once if no ID is recorded, else the finalizer stays and it comes back; a conflict is an error only for Server |
| Deletion.DeletionTerminates | internal/controller/volume_controller.go:287-345 | with c conflicts and d further sightings the object of any kind, with an ID or without, is gone within c + d + 2 reconciles, never before its resource, and keeps the finalizer until then |
| Disturbances.DeletionTerminatesAfterFaults | internal/controller/server_controller.go:362-410 | after any number of reconciles of a deleted object from any stored versions, with any failures, the object is not gone before its resource, and a STACKIT that obliges from then on ends it within the same bound |
| Convergence.CallLowersGroups | internal/controller/server_controller.go:307-360 | for every kind: no call is due iff no group drifted, and a call that is carried out lowers the number of drifted groups |
| Convergence.Creating | internal/controller/server_controller.go:94-157 | for every kind, a create with ready references makes one call and stores a live resource |
| Convergence.Watching | internal/controller/server_controller.go:236-301 | for every kind, a reconcile of a live resource waits while it is transitional, however it is shown, answers drift by one call, or reports it Ready for the current generation |
| Convergence.FindingItGone | internal/controller/server_controller.go:241-254 | for every kind, a reconcile that finds the resource gone clears the ID, keeps the finalizer and makes no call |
| Convergence.OneTurn | internal/controller/server_controller.go:74-92 | each reconcile lowers the rank, and each mutating call the number of calls left, whether the resource is to be made, watched, corrected, or is gone |
| Convergence.Converges | internal/controller/server_controller.go:74-92 | with reconciles from the stored version and no failing call, an owned object of any kind is converged after as many reconciles as its rank and stays so, also if its stored ID is that of a resource that is gone; at most one create, at most three (Server), two (Volume) or one (Network, Cluster) corrective calls, no other |
| Disturbances.ReconcileKeeps | internal/controller/network_controller.go:64-86 | from any stored version that is not deleted, whatever fails or takes effect, a reconcile leaves an owned object with its wish and finalizer, wanted if it was, and issues at most one call, no deletion |
| Disturbances.BlindViewsDoNothing | internal/controller/lifecycle.go:121-135 | a reconcile from an outdated view without the finalizer, without the ID that is stored by now (not Cluster), or with the ID of a resource that is gone changes neither the object nor STACKIT, whatever fails |
| Disturbances.ConvergesFromAnyViews | internal/controller/server_controller.go:236-360 | an outdated view that asks for the same and knows the live resource, or one that nothing comes of, costs one more reconcile and no call; any other outdated view counts as a fault, and a fault costs at most two creates and one more round of corrective calls |
| Disturbances.ConvergesAfterFaults | internal/controller/volume_controller.go:67-89 | after any faults, vanished resources included, a number of good reconciles that depends on kind and patience alone, and one more per outdated view, leads to a converged object |
| Convergence.OneUpsertPerSpecChange | internal/controller/cluster_controller.go:240-266 | a run of an existing Cluster with a fixed spec and distinct pool names makes at most one corrective upsert, none if the spec is met |
| Convergence.SlowBackendsSettle | internal/controller/server_controller.go:27-37 | the convergence theorem covers servers that show arbitrary old values in transitional states for any number of polls after each call |
| Controllers.MirrorNics | internal/controller/server_controller.go:418-427 | one status entry per NIC, in order |
| Controllers.MirrorErrors | internal/controller/cluster_controller.go:337-341 | one line per reported error, in order |
| Controllers.CustomResource.ApplyStatus | internal/controller/cluster_controller.go:328-345 | mirrors state and details in place for each kind, keeping what an answer of Network or Cluster leaves out, and notes the generation |
| Controllers.CustomResource.SetReadyCondition | internal/controller/server_controller.go:430-438 | replaces the one Ready condition, at the object's generation |
| Controllers.Reconciler.WriteStatusIfChanged | internal/controller/lifecycle.go:137-144 | writes the status back unless it equals the snapshot |
| Controllers.Reconciler.EnsureFinalizer | internal/controller/lifecycle.go:84-93 | no call if the finalizer is there, else one update; added iff that succeeded |
| Controllers.Reconciler.RemoveFinalizerAndUpdate | internal/controller/lifecycle.go:97-103 | nothing if the finalizer is not there, else one update without it, its failure returned |
| Controllers.Reconciler.IdAlreadyPresent | internal/controller/lifecycle.go:130-135 | overwrites the object by what is stored now and reports whether that has an ID |
| Controllers.Reconciler.ResolveNetworkRef | internal/controller/server_controller.go:175-194 | refines the specified resolution of the network |
| Controllers.Reconciler.ResolveBootVolumeRef | internal/controller/server_controller.go:207-220 | refines the specified resolution of the boot volume |
| Controllers.Reconciler.InvalidReference | internal/controller/server_controller.go:226-234 | reports the condition and stops without requeue |
| Controllers.Reconciler.CreateServer | internal/controller/server_controller.go:104-157 | resolves in order, waits or creates, as specified |
| Controllers.Reconciler.CreateAfterReread | internal/controller/volume_controller.go:91-157 | the creates of Server, Volume and Network with their different snapshots, as specified |
| Controllers.Reconciler.CreateByName | internal/controller/cluster_controller.go:119-159 | the upsert with its AlreadyExists fallback, as specified |
| Controllers.Reconciler.Adopt | internal/controller/network_controller.go:93-117 | reads and records the adopted resource, as specified |
| Controllers.Reconciler.ReconcileExisting | internal/controller/network_controller.go:153-230 | refines the specified reconcile of an existing resource for all kinds |
| Controllers.Reconciler.ReconcileDrift | internal/controller/server_controller.go:307-360 | at most one corrective call, exactly the specified one; reports whether it went through |
| Controllers.Reconciler.ReconcileDelete | internal/controller/cluster_controller.go:268-326 | refines the specified deletion for all kinds |
| Controllers.Reconciler.Dispatch | internal/controller/volume_controller.go:67-89 | deletion, finalizer, create or existing, as specified |
| Controllers.Reconciler.Reconcile | internal/controller/lifecycle.go:113-119 | a whole reconcile from a cached view, with the demotion of transient authentication errors, equals the specification all run theorems are about |

## Left out

- SDK client construction, the one-line HTTP wrappers, logging, controller wiring and generated deep copies: no behaviour of their own.
- Two reconciles of one object at the same time: the fresh read and the create are not atomic, so the orphan theorems assume serialised reconciles.
- The base64 encoding of a server's user data: kept symbolic.
- `projectId` and `region`: passed through unchanged.
- Wall-clock time, `LastTransitionTime` and backoff: delays are kept as numbers of seconds, retries after errors are the caller's.
- The text of wrapped error messages: an error keeps its class and text, and wrapping does not change either.
- Finalizers of other controllers: an object with several would stay longer than the model's.
- The watched Network and Volume objects a Server refers to: reading one gives an arbitrary reply.
- The printing of label values that are not strings: any text.
- Separate reconciler types per kind: the four Go structs are one class whose methods branch on the kind, since their code differs only there.
