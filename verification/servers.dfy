/** Servers: payload builders, reference resolution, and the comparison of a
    Server's spec with the server STACKIT reports. */
module Servers {
  import opened Common
  import opened Labels

  datatype BootVolumeSpec = BootVolumeSpec(size: int, performanceClass: string, deleteOnTermination: Option<bool>)

  datatype ServerSpec = ServerSpec(
    name: string, machineType: string, availabilityZone: string, imageId: string, bootVolume: BootVolumeSpec,
    bootVolumeRef: Option<string>, networkId: string, networkRef: Option<string>, keypairName: string,
    securityGroups: seq<string>, serviceAccountMails: seq<string>, labels: DesiredLabels, userData: string,
    powerState: string)

  /** The base64 encoding of a text, kept as the text it encodes. */
  datatype Encoded = Base64(text: string)

  datatype Nic = Nic(networkId: string, ipv4: Option<string>, ipv6: Option<string>, mac: string)

  /** The fields of iaas.Server the controller reads. */
  datatype Server = Server(
    name: string, state: Option<string>, powerStatus: Option<string>, machineType: string,
    errorMessage: Option<string>, labels: ObservedLabels, nics: seq<Nic>)

  datatype BootVolume = BootVolume(
    sourceId: string, sourceType: string, deleteOnTermination: Option<bool>,
    size: Option<int>, performanceClass: Option<string>)

  datatype CreateServerPayload = CreateServerPayload(
    name: string, machineType: string, networkId: string, imageId: Option<string>, availabilityZone: Option<string>,
    keypairName: Option<string>, userData: Option<Encoded>, securityGroups: seq<string>,
    serviceAccountMails: seq<string>, labels: Option<ObservedLabels>, bootVolume: Option<BootVolume>)

  datatype UpdateServerPayload = UpdateServerPayload(name: Option<string>, labels: Option<ObservedLabels>)

  const NO_UPDATE := UpdateServerPayload(None, None)

  datatype ServerAction = Resize(machineType: string) | Stop | Start | Update(payload: UpdateServerPayload)

  // ---- what counts as drift: three groups, in the order they are corrected

  predicate SizeDrifted(spec: ServerSpec, s: Server) {
    spec.machineType != "" && s.machineType != spec.machineType
  }

  function DesiredPower(spec: ServerSpec): string {
    if spec.powerState == "" then "Active" else spec.powerState
  }

  predicate MustStop(spec: ServerSpec, s: Server) {
    DesiredPower(spec) == "Inactive" && DerefString(s.powerStatus) == "RUNNING"
  }

  predicate MustStart(spec: ServerSpec, s: Server) {
    DesiredPower(spec) == "Active" && DerefString(s.powerStatus) == "STOPPED"
  }

  predicate PowerDrifted(spec: ServerSpec, s: Server) {
    MustStop(spec, s) || MustStart(spec, s)
  }

  predicate NameDrifted(spec: ServerSpec, objectName: string, s: Server) {
    s.name != NameOr(spec.name, objectName)
  }

  predicate LabelsDrifted(spec: ServerSpec, s: Server) {
    !Covers(s.labels, spec.labels)
  }

  predicate MetadataDrifted(spec: ServerSpec, objectName: string, s: Server) {
    NameDrifted(spec, objectName, s) || LabelsDrifted(spec, s)
  }

  /** How many of the three groups differ from the spec. */
  function DriftedGroups(spec: ServerSpec, objectName: string, s: Server): (n: nat)
    ensures n <= 3
  {
    (if SizeDrifted(spec, s) then 1 else 0) + (if PowerDrifted(spec, s) then 1 else 0)
    + (if MetadataDrifted(spec, objectName, s) then 1 else 0)
  }

  /** The update that sets exactly the drifted fields, each to its desired value. */
  function MetadataPatch(spec: ServerSpec, objectName: string, s: Server): UpdateServerPayload {
    UpdateServerPayload(
      if NameDrifted(spec, objectName, s) then Some(NameOr(spec.name, objectName)) else None,
      if LabelsDrifted(spec, s) then Some(Boxed(spec.labels)) else None)
  }

  /** The one corrective call a reconcile makes, if any. */
  function Drift(spec: ServerSpec, objectName: string, s: Server): Option<ServerAction> {
    if SizeDrifted(spec, s) then Some(Resize(spec.machineType))
    else if MustStop(spec, s) then Some(Stop)
    else if MustStart(spec, s) then Some(Start)
    else if MetadataDrifted(spec, objectName, s) then Some(Update(MetadataPatch(spec, objectName, s)))
    else None
  }

  // ---- what STACKIT does with an accepted call

  function ApplyUpdate(s: Server, p: UpdateServerPayload, replaceLabels: bool): Server {
    s.(name := if p.name.Some? then p.name.value else s.name,
       labels := if p.labels.Some? then ApplyLabels(s.labels, p.labels.value, replaceLabels) else s.labels)
  }

  /** The settled result of a corrective call. */
  function Apply(s: Server, a: ServerAction, replaceLabels: bool): Server {
    match a
    case Resize(m) => s.(machineType := m)
    case Stop => s.(state := Some("INACTIVE"), powerStatus := Some("STOPPED"))
    case Start => s.(state := Some("ACTIVE"), powerStatus := Some("RUNNING"))
    case Update(p) => ApplyUpdate(s, p, replaceLabels)
  }

  // ---- diff and patch cancel out

  /** The metadata update clears all metadata drift and touches nothing that
      was not drifted, whether STACKIT merges or replaces labels. */
  lemma PatchClearsMetadataDrift(spec: ServerSpec, objectName: string, s: Server, replace: bool)
    ensures var after := ApplyUpdate(s, MetadataPatch(spec, objectName, s), replace);
            && !MetadataDrifted(spec, objectName, after)
            && after.(name := s.name, labels := s.labels) == s
            && (!NameDrifted(spec, objectName, s) ==> after.name == s.name)
            && (!LabelsDrifted(spec, s) ==> after.labels == s.labels)
  {
  }

  /** No update is sent without need, and an update that is sent says something. */
  lemma PatchIsMinimal(spec: ServerSpec, objectName: string, s: Server)
    requires objectName != ""
    ensures MetadataPatch(spec, objectName, s) == NO_UPDATE <==> !MetadataDrifted(spec, objectName, s)
    ensures var p := MetadataPatch(spec, objectName, s);
            && (p.name.Some? ==> p.name.value != "" && p.name.value != s.name)
            && (p.labels.Some? ==> p.labels.value != map[] && !Covers(s.labels, spec.labels))
  {
    SendingLabelsCovers(s.labels, spec.labels, true);
    if LabelsDrifted(spec, s) {
      var k :| k in spec.labels;
      assert k in Boxed(spec.labels);
    }
  }

  /** Every corrective call removes exactly one drifted group and brings back
      none, so a server settles after as many calls as groups had drifted. */
  lemma CallSettlesOneGroup(spec: ServerSpec, objectName: string, s: Server, replace: bool)
    ensures Drift(spec, objectName, s).None? <==> DriftedGroups(spec, objectName, s) == 0
    ensures var d := Drift(spec, objectName, s);
            d.Some? ==>
              DriftedGroups(spec, objectName, Apply(s, d.value, replace)) == DriftedGroups(spec, objectName, s) - 1
  {
  }

  /** When a server is resized, stopped or started, in terms of its fields: power
      is touched only if it is the opposite of what was asked for, running being
      the default, and never before the machine type is right. */
  lemma CallsByFields(spec: ServerSpec, objectName: string, s: Server, machineType: string)
    ensures var d, resize := Drift(spec, objectName, s), spec.machineType != "" && s.machineType != spec.machineType;
            && (d == Some(Resize(machineType)) <==> resize && machineType == spec.machineType)
            && (d == Some(Stop) <==> !resize && spec.powerState == "Inactive" && s.powerStatus == Some("RUNNING"))
            && (d == Some(Start) <==>
                  !resize && spec.powerState in {"", "Active"} && s.powerStatus == Some("STOPPED"))
  {
  }

  // ---- create

  /** An existing volume to boot from, or one made from the image if anything is
      asked of it. */
  function CreateBootVolume(boot: BootVolumeSpec, imageId: string, bootVolumeId: string): Option<BootVolume> {
    if bootVolumeId != "" then
      Some(BootVolume(bootVolumeId, "volume", boot.deleteOnTermination, None, None))
    else if boot.size > 0 || boot.performanceClass != "" || boot.deleteOnTermination.Some? then
      Some(BootVolume(
        imageId, "image", boot.deleteOnTermination,
        if boot.size > 0 then Some(boot.size) else None,
        if boot.performanceClass != "" then Some(boot.performanceClass) else None))
    else None
  }

  function CreatePayload(name: string, spec: ServerSpec, imageId: string, networkId: string, bootVolumeId: string)
    : CreateServerPayload
  {
    CreateServerPayload(
      name, spec.machineType, networkId,
      if imageId != "" then Some(imageId) else None,
      if spec.availabilityZone != "" then Some(spec.availabilityZone) else None,
      if spec.keypairName != "" then Some(spec.keypairName) else None,
      if spec.userData != "" then Some(Base64(spec.userData)) else None,
      spec.securityGroups,
      spec.serviceAccountMails,
      if spec.labels != map[] then Some(Boxed(spec.labels)) else None,
      CreateBootVolume(spec.bootVolume, imageId, bootVolumeId))
  }

  /** The server boots from a volume or from a named image; in no case from an
      empty ID. */
  predicate HasBootSource(p: CreateServerPayload) {
    match p.bootVolume
    case None => p.imageId.Some? && p.imageId.value != ""
    case Some(b) =>
      b.sourceId != "" && (b.sourceType == "volume" || (b.sourceType == "image" && p.imageId == Some(b.sourceId)))
  }

  predicate WellFormedCreate(p: CreateServerPayload) {
    p.networkId != "" && HasBootSource(p)
  }

  /** A new server that echoes its create payload. */
  predicate EchoesCreate(p: CreateServerPayload, s: Server) {
    && s.name == p.name && s.machineType == p.machineType
    && (p.labels.Some? ==> forall k | k in p.labels.value :: k in s.labels && s.labels[k] == p.labels.value[k])
  }

  /** A server created from a spec differs from it at most in its power state. */
  lemma CreatedServerOnlyLacksPower(spec: ServerSpec, objectName: string, imageId: string, networkId: string,
                                    bootVolumeId: string, s: Server)
    requires EchoesCreate(CreatePayload(NameOr(spec.name, objectName), spec, imageId, networkId, bootVolumeId), s)
    ensures !SizeDrifted(spec, s) && !MetadataDrifted(spec, objectName, s)
  {
  }

  /** The server is as a create with that payload would make it; an empty machine
      type asks for none in particular. */
  predicate AsCreated(p: CreateServerPayload, s: Server) {
    && s.name == p.name && (p.machineType != "" ==> s.machineType == p.machineType)
    && (p.labels.Some? ==> Covers(s.labels, Unboxed(p.labels)))
  }

  /** The power state is the opposite of what was asked for. */
  predicate PowerIsWrong(spec: ServerSpec, s: Server) {
    || (spec.powerState == "Inactive" && s.powerStatus == Some("RUNNING"))
    || (spec.powerState in {"", "Active"} && s.powerStatus == Some("STOPPED"))
  }

  /** The converse too: nothing is left to correct iff the server is as a create
      from today's spec would make it, and its power state is not the wrong one. */
  lemma NoDriftIffAsCreated(spec: ServerSpec, objectName: string, imageId: string, networkId: string,
                            bootVolumeId: string, s: Server)
    requires objectName != ""
    ensures Drift(spec, objectName, s).None? <==>
              && AsCreated(CreatePayload(NameOr(spec.name, objectName), spec, imageId, networkId, bootVolumeId), s)
              && !PowerIsWrong(spec, s)
  {
    BoxedIsUnboxed(spec.labels);
  }

  /** What a create asks for, read back as a spec; sizes and classes of a boot
      volume only if it is made from the image. */
  function Requested(p: CreateServerPayload): ServerSpec {
    ServerSpec(
      p.name, p.machineType, DerefString(p.availabilityZone), DerefString(p.imageId),
      match p.bootVolume
      case None => BootVolumeSpec(0, "", None)
      case Some(b) => BootVolumeSpec(DerefInt(b.size), DerefString(b.performanceClass), b.deleteOnTermination),
      None, p.networkId, None, DerefString(p.keypairName), p.securityGroups, p.serviceAccountMails,
      Unboxed(p.labels), if p.userData.Some? then p.userData.value.text else "", "")
  }

  /** The create asks for what the spec says, field by field, and for the resolved
      image, network and boot volume; it leaves out what is empty. A given boot
      volume is taken as it is; one is made from the image iff the spec asks for
      anything about it. */
  lemma CreateAsksForTheSpec(name: string, spec: ServerSpec, imageId: string, networkId: string, bootVolumeId: string)
    ensures var p, boot := CreatePayload(name, spec, imageId, networkId, bootVolumeId), spec.bootVolume;
            && Requested(p) ==
                 spec.(name := name, imageId := imageId, networkId := networkId, powerState := "",
                       networkRef := None, bootVolumeRef := None,
                       bootVolume := if bootVolumeId != "" then BootVolumeSpec(0, "", boot.deleteOnTermination)
                                     else boot.(size := if boot.size > 0 then boot.size else 0))
            && (bootVolumeId != "" ==>
                  p.bootVolume.Some? && p.bootVolume.value.sourceId == bootVolumeId
                  && p.bootVolume.value.sourceType == "volume")
            && (bootVolumeId == "" ==>
                  && (p.bootVolume.None? <==>
                        boot.size <= 0 && boot.performanceClass == "" && boot.deleteOnTermination.None?)
                  && (p.bootVolume.Some? ==>
                        p.bootVolume.value.sourceId == imageId && p.bootVolume.value.sourceType == "image"))
            && Some("") !in {p.imageId, p.availabilityZone, p.keypairName} && p.labels != Some(map[])
            && p.userData != Some(Base64(""))
            && (p.bootVolume.Some? ==>
                  && (p.bootVolume.value.size.Some? ==> p.bootVolume.value.size.value > 0)
                  && p.bootVolume.value.performanceClass != Some(""))
  {
    BoxedIsUnboxed(spec.labels);
    if spec.labels != map[] {
      var k :| k in spec.labels;
      assert k in Boxed(spec.labels);
    }
  }

  // ---- the builders, step by step as the source has them

  method BuildBootVolume(spec: ServerSpec, imageId: string, bootVolumeId: string)
    returns (bootVolume: Option<BootVolume>)
    ensures bootVolume == CreateBootVolume(spec.bootVolume, imageId, bootVolumeId)
  {
    bootVolume := None;
    var boot := spec.bootVolume;
    if bootVolumeId != "" {
      bootVolume := Some(BootVolume(bootVolumeId, "volume", boot.deleteOnTermination, None, None));
    } else if boot.size > 0 || boot.performanceClass != "" || boot.deleteOnTermination.Some? {
      var created := BootVolume(imageId, "image", boot.deleteOnTermination, None, None);
      if boot.size > 0 {
        created := created.(size := Some(boot.size));
      }
      if boot.performanceClass != "" {
        created := created.(performanceClass := Some(boot.performanceClass));
      }
      bootVolume := Some(created);
    }
  }

  method BuildCreatePayload(name: string, spec: ServerSpec, resolvedImageId: string, resolvedNetworkId: string,
                            resolvedBootVolumeId: string)
    returns (payload: CreateServerPayload)
    ensures payload == CreatePayload(name, spec, resolvedImageId, resolvedNetworkId, resolvedBootVolumeId)
  {
    payload := CreateServerPayload(
      name, spec.machineType, resolvedNetworkId, None, None, None, None, [], [], None, None);
    if resolvedImageId != "" {
      payload := payload.(imageId := Some(resolvedImageId));
    }
    if spec.availabilityZone != "" {
      payload := payload.(availabilityZone := Some(spec.availabilityZone));
    }
    if spec.keypairName != "" {
      payload := payload.(keypairName := Some(spec.keypairName));
    }
    if spec.userData != "" {
      payload := payload.(userData := Some(Base64(spec.userData)));
    }
    if |spec.securityGroups| > 0 {
      payload := payload.(securityGroups := spec.securityGroups);
    }
    if |spec.serviceAccountMails| > 0 {
      payload := payload.(serviceAccountMails := spec.serviceAccountMails);
    }
    if |spec.labels| > 0 {
      var labels := ToInterfaceMap(spec.labels);
      payload := payload.(labels := Some(labels));
    }
    var bootVolume := BuildBootVolume(spec, resolvedImageId, resolvedBootVolumeId);
    payload := payload.(bootVolume := bootVolume);
  }

  method BuildUpdatePayload(name: string, labels: Option<DesiredLabels>) returns (payload: UpdateServerPayload)
    ensures payload.name == (if name != "" then Some(name) else None)
    ensures payload.labels.Some? <==> labels.Some?
    ensures labels.Some? ==> payload.labels.value == Boxed(labels.value)
  {
    payload := NO_UPDATE;
    if name != "" {
      payload := payload.(name := Some(name));
    }
    if labels.Some? {
      var boxed := ToInterfaceMap(labels.value);
      payload := payload.(labels := Some(boxed));
    }
  }

  /** The comparison of reconcileDrift with its local variables. */
  method ChooseAction(spec: ServerSpec, objectName: string, current: Server) returns (action: Option<ServerAction>)
    requires objectName != ""
    ensures action == Drift(spec, objectName, current)
  {
    if spec.machineType != "" && current.machineType != spec.machineType {
      return Some(Resize(spec.machineType));
    }
    var desiredPower := spec.powerState;
    if desiredPower == "" {
      desiredPower := "Active";
    }
    var powerStatus := DerefString(current.powerStatus);
    if desiredPower == "Inactive" && powerStatus == "RUNNING" {
      return Some(Stop);
    } else if desiredPower == "Active" && powerStatus == "STOPPED" {
      return Some(Start);
    }
    var name := NameOr(spec.name, objectName);
    var nameChanged := current.name != name;
    var covered := LabelsEqual(current.labels, spec.labels);
    var labelsChanged := !covered;
    if nameChanged || labelsChanged {
      var updateName := "";
      if nameChanged {
        updateName := name;
      }
      var updateLabels: Option<DesiredLabels> := None;
      if labelsChanged {
        updateLabels := Some(spec.labels);
      }
      var payload := BuildUpdatePayload(updateName, updateLabels);
      return Some(Update(payload));
    }
    action := None;
  }
}
