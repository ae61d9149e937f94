/** Volumes: payload builders, and the comparison of a Volume's spec with the
    volume STACKIT reports. */
module Volumes {
  import opened Common
  import opened Labels

  datatype VolumeSource = VolumeSource(id: string, kind: string)

  datatype VolumeSpec = VolumeSpec(
    name: string, availabilityZone: string, size: int, performanceClass: string, description: string,
    bootable: Option<bool>, source: Option<VolumeSource>, labels: DesiredLabels, existingId: Option<string>)

  /** The fields of iaas.Volume the controller reads. */
  datatype Volume = Volume(
    name: Option<string>, state: Option<string>, size: Option<int>, description: Option<string>,
    bootable: Option<bool>, serverId: Option<string>, labels: ObservedLabels)

  datatype CreateVolumePayload = CreateVolumePayload(
    availabilityZone: string, name: string, size: Option<int>, performanceClass: Option<string>,
    description: Option<string>, bootable: Option<bool>, source: Option<VolumeSource>, labels: Option<ObservedLabels>)

  datatype UpdateVolumePayload = UpdateVolumePayload(
    name: Option<string>, description: Option<string>, bootable: Option<bool>, labels: Option<ObservedLabels>)

  const NO_UPDATE := UpdateVolumePayload(None, None, None, None)

  datatype VolumeAction = Resize(size: int) | Update(payload: UpdateVolumePayload)

  // ---- what counts as drift, field by field

  predicate SizeDrifted(spec: VolumeSpec, v: Volume) {
    spec.size > 0 && DerefInt(v.size) != spec.size
  }

  predicate NameDrifted(spec: VolumeSpec, objectName: string, v: Volume) {
    DerefString(v.name) != NameOr(spec.name, objectName)
  }

  predicate DescriptionDrifted(spec: VolumeSpec, v: Volume) {
    spec.description != "" && DerefString(v.description) != spec.description
  }

  predicate BootableDrifted(spec: VolumeSpec, v: Volume) {
    spec.bootable.Some? && DerefBool(v.bootable) != spec.bootable.value
  }

  predicate LabelsDrifted(spec: VolumeSpec, v: Volume) {
    !Covers(v.labels, spec.labels)
  }

  predicate MetadataDrifted(spec: VolumeSpec, objectName: string, v: Volume) {
    || NameDrifted(spec, objectName, v) || DescriptionDrifted(spec, v)
    || BootableDrifted(spec, v) || LabelsDrifted(spec, v)
  }

  /** How many of the two groups differ from the spec. */
  function DriftedGroups(spec: VolumeSpec, objectName: string, v: Volume): (n: nat)
    ensures n <= 2
  {
    (if SizeDrifted(spec, v) then 1 else 0) + (if MetadataDrifted(spec, objectName, v) then 1 else 0)
  }

  /** The update that sets exactly the drifted fields, each to its desired value. */
  function MetadataPatch(spec: VolumeSpec, objectName: string, v: Volume): UpdateVolumePayload {
    UpdateVolumePayload(
      if NameDrifted(spec, objectName, v) then Some(NameOr(spec.name, objectName)) else None,
      if DescriptionDrifted(spec, v) then Some(spec.description) else None,
      if BootableDrifted(spec, v) then spec.bootable else None,
      if LabelsDrifted(spec, v) then Some(Boxed(spec.labels)) else None)
  }

  /** The one corrective call a reconcile makes, if any: the size group first,
      then the metadata group. */
  function Drift(spec: VolumeSpec, objectName: string, v: Volume): Option<VolumeAction> {
    if SizeDrifted(spec, v) then Some(Resize(spec.size))
    else if MetadataDrifted(spec, objectName, v) then Some(Update(MetadataPatch(spec, objectName, v)))
    else None
  }

  // ---- what STACKIT does with an accepted call

  function ApplyUpdate(v: Volume, p: UpdateVolumePayload, replaceLabels: bool): Volume {
    v.(name := if p.name.Some? then p.name else v.name,
       description := if p.description.Some? then p.description else v.description,
       bootable := if p.bootable.Some? then p.bootable else v.bootable,
       labels := if p.labels.Some? then ApplyLabels(v.labels, p.labels.value, replaceLabels) else v.labels)
  }

  function Apply(v: Volume, a: VolumeAction, replaceLabels: bool): Volume {
    match a
    case Resize(size) => v.(size := Some(size))
    case Update(p) => ApplyUpdate(v, p, replaceLabels)
  }

  /** A new volume that echoes its create payload; what the payload leaves
      out is up to STACKIT. */
  predicate EchoesCreate(p: CreateVolumePayload, v: Volume) {
    && v.name == Some(p.name)
    && (p.size.Some? ==> v.size == p.size)
    && (p.description.Some? ==> v.description == p.description)
    && (p.bootable.Some? ==> v.bootable == p.bootable)
    && (p.labels.Some? ==> forall k | k in p.labels.value :: k in v.labels && v.labels[k] == p.labels.value[k])
  }

  function CreatePayload(name: string, spec: VolumeSpec): CreateVolumePayload {
    CreateVolumePayload(
      spec.availabilityZone,
      name,
      if spec.size > 0 then Some(spec.size) else None,
      if spec.performanceClass != "" then Some(spec.performanceClass) else None,
      if spec.description != "" then Some(spec.description) else None,
      spec.bootable,
      spec.source,
      if spec.labels != map[] then Some(Boxed(spec.labels)) else None)
  }

  // ---- diff and patch cancel out

  /** The metadata update clears all metadata drift and touches nothing that
      was not drifted, whether STACKIT merges or replaces labels. */
  lemma PatchClearsMetadataDrift(spec: VolumeSpec, objectName: string, v: Volume, replace: bool)
    ensures var after := ApplyUpdate(v, MetadataPatch(spec, objectName, v), replace);
            && !MetadataDrifted(spec, objectName, after)
            && after.state == v.state && after.size == v.size && after.serverId == v.serverId
            && (!NameDrifted(spec, objectName, v) ==> after.name == v.name)
            && (!DescriptionDrifted(spec, v) ==> after.description == v.description)
            && (!BootableDrifted(spec, v) ==> after.bootable == v.bootable)
            && (!LabelsDrifted(spec, v) ==> after.labels == v.labels)
  {
  }

  /** No update is sent without need, and an update that is sent says something. */
  lemma PatchIsMinimal(spec: VolumeSpec, objectName: string, v: Volume)
    requires objectName != ""
    ensures MetadataPatch(spec, objectName, v) == NO_UPDATE <==> !MetadataDrifted(spec, objectName, v)
    ensures var p := MetadataPatch(spec, objectName, v);
            && (p.name.Some? ==> p.name.value != "" && p.name.value != DerefString(v.name))
            && (p.description.Some? ==> p.description.value != "" && p.description.value != DerefString(v.description))
            && (p.bootable.Some? ==> p.bootable.value != DerefBool(v.bootable))
            && (p.labels.Some? ==> p.labels.value != map[] && !Covers(v.labels, spec.labels))
  {
    SendingLabelsCovers(v.labels, spec.labels, true);
    if LabelsDrifted(spec, v) {
      var k :| k in spec.labels;
      assert k in Boxed(spec.labels);
    }
  }

  /** Every corrective call removes exactly one drifted group and brings back none. */
  lemma CallSettlesOneGroup(spec: VolumeSpec, objectName: string, v: Volume, replace: bool)
    ensures Drift(spec, objectName, v).None? <==> DriftedGroups(spec, objectName, v) == 0
    ensures var d := Drift(spec, objectName, v);
            d.Some? ==>
              DriftedGroups(spec, objectName, Apply(v, d.value, replace)) == DriftedGroups(spec, objectName, v) - 1
  {
  }

  /** At most two corrective calls bring any volume in line with its spec: the
      first call settles one group for good, and the second the other. */
  lemma TwoCallsSettle(spec: VolumeSpec, objectName: string, v: Volume, replace: bool)
    ensures var d := Drift(spec, objectName, v);
            d.Some? ==>
              var once := Apply(v, d.value, replace);
              var d' := Drift(spec, objectName, once);
              d'.Some? ==>
                && d.value.Resize? && d'.value.Update?
                && Drift(spec, objectName, Apply(once, d'.value, replace)).None?
  {
  }

  /** A volume created from a spec shows no drift against that spec. */
  lemma CreatedVolumeHasNoDrift(spec: VolumeSpec, objectName: string, v: Volume)
    requires EchoesCreate(CreatePayload(NameOr(spec.name, objectName), spec), v)
    ensures Drift(spec, objectName, v).None?
  {
  }

  /** The volume is as a create with that payload would make it, except that a
      flag asked to be off may also be unset. */
  predicate AsCreated(p: CreateVolumePayload, v: Volume) {
    && v.name == Some(p.name)
    && (p.size.Some? ==> v.size == p.size)
    && (p.description.Some? ==> v.description == p.description)
    && (p.bootable == Some(true) ==> v.bootable == Some(true))
    && (p.bootable == Some(false) ==> v.bootable != Some(true))
    && (p.labels.Some? ==> Covers(v.labels, Unboxed(p.labels)))
  }

  /** The converse too: nothing is left to correct iff the volume is as a create
      from today's spec would make it. */
  lemma NoDriftIffAsCreated(spec: VolumeSpec, objectName: string, v: Volume)
    requires objectName != ""
    ensures Drift(spec, objectName, v).None? <==> AsCreated(CreatePayload(NameOr(spec.name, objectName), spec), v)
  {
    BoxedIsUnboxed(spec.labels);
  }

  /** The call in terms of the fields: a resize iff a positive size was asked for
      that is not the volume's, and to that size. */
  lemma ResizeIff(spec: VolumeSpec, objectName: string, v: Volume, size: int)
    ensures Drift(spec, objectName, v) == Some(Resize(size)) <==>
              spec.size > 0 && v.size != Some(spec.size) && size == spec.size
  {
  }

  /** What a create asks for, read back as a spec. */
  function Requested(p: CreateVolumePayload): VolumeSpec {
    VolumeSpec(p.name, p.availabilityZone, DerefInt(p.size), DerefString(p.performanceClass),
               DerefString(p.description), p.bootable, p.source, Unboxed(p.labels), None)
  }

  /** The create asks for what the spec says, field by field, and leaves out what
      the spec leaves empty. */
  lemma CreateAsksForTheSpec(name: string, spec: VolumeSpec)
    ensures var p := CreatePayload(name, spec);
            && Requested(p) == spec.(name := name, size := if spec.size > 0 then spec.size else 0, existingId := None)
            && (p.size.Some? ==> p.size.value > 0)
            && p.performanceClass != Some("") && p.description != Some("") && p.labels != Some(map[])
  {
    BoxedIsUnboxed(spec.labels);
    if spec.labels != map[] {
      var k :| k in spec.labels;
      assert k in Boxed(spec.labels);
    }
  }

  // ---- the builders, step by step as the source has them

  method BuildVolumeCreatePayload(name: string, spec: VolumeSpec) returns (payload: CreateVolumePayload)
    ensures payload == CreatePayload(name, spec)
  {
    payload := CreateVolumePayload(spec.availabilityZone, name, None, None, None, None, None, None);
    if spec.size > 0 {
      payload := payload.(size := Some(spec.size));
    }
    if spec.performanceClass != "" {
      payload := payload.(performanceClass := Some(spec.performanceClass));
    }
    if spec.bootable.Some? {
      payload := payload.(bootable := spec.bootable);
    }
    if spec.description != "" {
      payload := payload.(description := Some(spec.description));
    }
    if spec.source.Some? {
      payload := payload.(source := Some(VolumeSource(spec.source.value.id, spec.source.value.kind)));
    }
    if |spec.labels| > 0 {
      var labels := ToInterfaceMap(spec.labels);
      payload := payload.(labels := Some(labels));
    }
  }

  method BuildVolumeUpdatePayload(name: string, description: string, bootable: Option<bool>,
                                  labels: Option<DesiredLabels>)
    returns (payload: UpdateVolumePayload)
    ensures payload.name == (if name != "" then Some(name) else None)
    ensures payload.description == (if description != "" then Some(description) else None)
    ensures payload.bootable == bootable
    ensures payload.labels.Some? <==> labels.Some?
    ensures labels.Some? ==> payload.labels.value == Boxed(labels.value)
  {
    payload := NO_UPDATE;
    if name != "" {
      payload := payload.(name := Some(name));
    }
    if description != "" {
      payload := payload.(description := Some(description));
    }
    if bootable.Some? {
      payload := payload.(bootable := bootable);
    }
    if labels.Some? {
      var boxed := ToInterfaceMap(labels.value);
      payload := payload.(labels := Some(boxed));
    }
  }

  /** The comparison of reconcileDrift with its local variables: the sentinel
      values "" and nil that mean "leave alone" never collide with a value
      that has to be sent. */
  method ChooseAction(spec: VolumeSpec, objectName: string, current: Volume) returns (action: Option<VolumeAction>)
    requires objectName != ""
    ensures action == Drift(spec, objectName, current)
  {
    if spec.size > 0 && DerefInt(current.size) != spec.size {
      return Some(Resize(spec.size));
    }
    var name := NameOr(spec.name, objectName);
    var nameChanged := DerefString(current.name) != name;
    var descChanged := spec.description != "" && DerefString(current.description) != spec.description;
    var bootableChanged := spec.bootable.Some? && DerefBool(current.bootable) != spec.bootable.value;
    var covered := LabelsEqual(current.labels, spec.labels);
    var labelsChanged := !covered;
    if nameChanged || descChanged || bootableChanged || labelsChanged {
      var updateName, updateDesc := "", "";
      if nameChanged {
        updateName := name;
      }
      if descChanged {
        updateDesc := spec.description;
      }
      var updateBootable: Option<bool> := None;
      if bootableChanged {
        updateBootable := spec.bootable;
      }
      var updateLabels: Option<DesiredLabels> := None;
      if labelsChanged {
        updateLabels := Some(spec.labels);
      }
      var payload := BuildVolumeUpdatePayload(updateName, updateDesc, updateBootable, updateLabels);
      return Some(Update(payload));
    }
    action := None;
  }
}
