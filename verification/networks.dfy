/** Networks: payload builders, and the comparison of a Network's spec with the
    network STACKIT reports. */
module Networks {
  import opened Common
  import opened Labels

  /** The IPv4 or IPv6 block of a spec. */
  datatype SubnetSpec = SubnetSpec(prefixLength: int, nameservers: seq<string>, vpcNetworkRangeId: string)

  datatype NetworkSpec = NetworkSpec(
    name: string, dhcp: Option<bool>, routed: Option<bool>, routingTableId: string, vpcId: string,
    ipv4: Option<SubnetSpec>, ipv6: Option<SubnetSpec>,
    labels: DesiredLabels, existingId: Option<string>)

  datatype NetworkIPv4 = NetworkIPv4(prefixes: seq<string>, gateway: Option<string>)

  /** The fields of iaas.Network the controller reads. */
  datatype Network = Network(
    name: string, state: string, dhcp: Option<bool>, routed: Option<bool>, routingTableId: Option<string>,
    labels: ObservedLabels, ipv4: Option<NetworkIPv4>)

  /** A subnet STACKIT allocates by prefix length. */
  datatype Subnet = Subnet(prefixLength: int, nameservers: seq<string>, vpcNetworkRangeId: Option<string>)

  datatype CreateNetworkPayload = CreateNetworkPayload(
    name: string, dhcp: Option<bool>, routed: Option<bool>, routingTableId: Option<string>, vpcId: Option<string>,
    ipv4: Option<Subnet>, ipv6: Option<Subnet>,
    labels: Option<ObservedLabels>)

  datatype UpdateNetworkPayload = UpdateNetworkPayload(
    name: Option<string>, dhcp: Option<bool>, routed: Option<bool>, routingTableId: Option<string>,
    labels: Option<ObservedLabels>)

  const NO_UPDATE := UpdateNetworkPayload(None, None, None, None, None)

  // ---- what counts as drift, field by field

  predicate NameDrifted(spec: NetworkSpec, objectName: string, n: Network) {
    n.name != NameOr(spec.name, objectName)
  }

  predicate DhcpDrifted(spec: NetworkSpec, n: Network) {
    spec.dhcp.Some? && DerefBool(n.dhcp) != spec.dhcp.value
  }

  predicate RoutedDrifted(spec: NetworkSpec, n: Network) {
    spec.routed.Some? && DerefBool(n.routed) != spec.routed.value
  }

  predicate RoutingTableDrifted(spec: NetworkSpec, n: Network) {
    spec.routingTableId != "" && DerefString(n.routingTableId) != spec.routingTableId
  }

  predicate LabelsDrifted(spec: NetworkSpec, n: Network) {
    !Covers(n.labels, spec.labels)
  }

  predicate Drifted(spec: NetworkSpec, objectName: string, n: Network) {
    || NameDrifted(spec, objectName, n) || DhcpDrifted(spec, n) || RoutedDrifted(spec, n)
    || RoutingTableDrifted(spec, n) || LabelsDrifted(spec, n)
  }

  /** The update that sets exactly the drifted fields, each to its desired value. */
  function Patch(spec: NetworkSpec, objectName: string, n: Network): UpdateNetworkPayload {
    UpdateNetworkPayload(
      if NameDrifted(spec, objectName, n) then Some(NameOr(spec.name, objectName)) else None,
      if DhcpDrifted(spec, n) then spec.dhcp else None,
      if RoutedDrifted(spec, n) then spec.routed else None,
      if RoutingTableDrifted(spec, n) then Some(spec.routingTableId) else None,
      if LabelsDrifted(spec, n) then Some(Boxed(spec.labels)) else None)
  }

  /** The one corrective call a reconcile makes, if any. */
  function Drift(spec: NetworkSpec, objectName: string, n: Network): Option<UpdateNetworkPayload> {
    if Drifted(spec, objectName, n) then Some(Patch(spec, objectName, n)) else None
  }

  // ---- what STACKIT does with an accepted call

  function ApplyUpdate(n: Network, p: UpdateNetworkPayload, replaceLabels: bool): Network {
    n.(name := if p.name.Some? then p.name.value else n.name,
       dhcp := if p.dhcp.Some? then p.dhcp else n.dhcp,
       routed := if p.routed.Some? then p.routed else n.routed,
       routingTableId := if p.routingTableId.Some? then p.routingTableId else n.routingTableId,
       labels := if p.labels.Some? then ApplyLabels(n.labels, p.labels.value, replaceLabels) else n.labels)
  }

  /** A new network that echoes its create payload; what the payload leaves
      out is up to STACKIT. */
  predicate EchoesCreate(p: CreateNetworkPayload, n: Network) {
    && n.name == p.name
    && (p.dhcp.Some? ==> n.dhcp == p.dhcp)
    && (p.routed.Some? ==> n.routed == p.routed)
    && (p.routingTableId.Some? ==> n.routingTableId == p.routingTableId)
    && (p.labels.Some? ==> forall k | k in p.labels.value :: k in n.labels && n.labels[k] == p.labels.value[k])
  }

  function CreateSubnet(s: SubnetSpec): Subnet {
    Subnet(s.prefixLength, s.nameservers, if s.vpcNetworkRangeId != "" then Some(s.vpcNetworkRangeId) else None)
  }

  function CreatePayload(name: string, spec: NetworkSpec): CreateNetworkPayload {
    CreateNetworkPayload(
      name,
      spec.dhcp,
      spec.routed,
      if spec.routingTableId != "" then Some(spec.routingTableId) else None,
      if spec.vpcId != "" then Some(spec.vpcId) else None,
      if spec.ipv4.Some? then Some(CreateSubnet(spec.ipv4.value)) else None,
      if spec.ipv6.Some? then Some(CreateSubnet(spec.ipv6.value)) else None,
      if spec.labels != map[] then Some(Boxed(spec.labels)) else None)
  }

  // ---- diff and patch cancel out

  /** One update clears all drift and touches nothing that was not drifted,
      whether STACKIT merges or replaces labels. */
  lemma PatchClearsDrift(spec: NetworkSpec, objectName: string, n: Network, replace: bool)
    ensures var after := ApplyUpdate(n, Patch(spec, objectName, n), replace);
            && Drift(spec, objectName, after).None?
            && after.state == n.state && after.ipv4 == n.ipv4
            && (!NameDrifted(spec, objectName, n) ==> after.name == n.name)
            && (!DhcpDrifted(spec, n) ==> after.dhcp == n.dhcp)
            && (!RoutedDrifted(spec, n) ==> after.routed == n.routed)
            && (!RoutingTableDrifted(spec, n) ==> after.routingTableId == n.routingTableId)
            && (!LabelsDrifted(spec, n) ==> after.labels == n.labels)
  {
  }

  /** No update is sent without need, and an update that is sent says something. */
  lemma PatchIsMinimal(spec: NetworkSpec, objectName: string, n: Network)
    requires objectName != ""
    ensures Patch(spec, objectName, n) == NO_UPDATE <==> !Drifted(spec, objectName, n)
    ensures var p := Patch(spec, objectName, n);
            && (p.name.Some? ==> p.name.value != "" && p.name.value != n.name)
            && (p.dhcp.Some? ==> p.dhcp.value != DerefBool(n.dhcp))
            && (p.routed.Some? ==> p.routed.value != DerefBool(n.routed))
            && (p.routingTableId.Some? ==>
                  p.routingTableId.value != "" && p.routingTableId.value != DerefString(n.routingTableId))
            && (p.labels.Some? ==> p.labels.value != map[] && !Covers(n.labels, spec.labels))
  {
    SendingLabelsCovers(n.labels, spec.labels, true);
    if LabelsDrifted(spec, n) {
      var k :| k in spec.labels;
      assert k in Boxed(spec.labels);
    }
  }

  /** A network created from a spec shows no drift against that spec. */
  lemma CreatedNetworkHasNoDrift(spec: NetworkSpec, objectName: string, n: Network)
    requires EchoesCreate(CreatePayload(NameOr(spec.name, objectName), spec), n)
    ensures Drift(spec, objectName, n).None?
  {
  }

  /** The network is as a create with that payload would make it, except that a
      flag asked to be off may also be unset. */
  predicate AsCreated(p: CreateNetworkPayload, n: Network) {
    && n.name == p.name
    && (p.dhcp == Some(true) ==> n.dhcp == Some(true)) && (p.dhcp == Some(false) ==> n.dhcp != Some(true))
    && (p.routed == Some(true) ==> n.routed == Some(true)) && (p.routed == Some(false) ==> n.routed != Some(true))
    && (p.routingTableId.Some? ==> n.routingTableId == p.routingTableId)
    && (p.labels.Some? ==> Covers(n.labels, Unboxed(p.labels)))
  }

  /** The converse too: nothing is left to correct iff the network is as a create
      from today's spec would make it. */
  lemma NoDriftIffAsCreated(spec: NetworkSpec, objectName: string, n: Network)
    requires objectName != ""
    ensures Drift(spec, objectName, n).None? <==> AsCreated(CreatePayload(NameOr(spec.name, objectName), spec), n)
  {
    BoxedIsUnboxed(spec.labels);
  }

  function RequestedSubnet(s: Subnet): SubnetSpec {
    SubnetSpec(s.prefixLength, s.nameservers, DerefString(s.vpcNetworkRangeId))
  }

  /** What a create asks for, read back as a spec. */
  function Requested(p: CreateNetworkPayload): NetworkSpec {
    NetworkSpec(p.name, p.dhcp, p.routed, DerefString(p.routingTableId), DerefString(p.vpcId),
                if p.ipv4.Some? then Some(RequestedSubnet(p.ipv4.value)) else None,
                if p.ipv6.Some? then Some(RequestedSubnet(p.ipv6.value)) else None,
                Unboxed(p.labels), None)
  }

  /** The create asks for what the spec says, field by field, and leaves out what
      the spec leaves empty. */
  lemma CreateAsksForTheSpec(name: string, spec: NetworkSpec)
    ensures var p := CreatePayload(name, spec);
            && Requested(p) == spec.(name := name, existingId := None)
            && p.routingTableId != Some("") && p.vpcId != Some("") && p.labels != Some(map[])
            && (p.ipv4.Some? ==> p.ipv4.value.vpcNetworkRangeId != Some(""))
            && (p.ipv6.Some? ==> p.ipv6.value.vpcNetworkRangeId != Some(""))
  {
    BoxedIsUnboxed(spec.labels);
    if spec.labels != map[] {
      var k :| k in spec.labels;
      assert k in Boxed(spec.labels);
    }
  }

  // ---- the builders, step by step as the source has them

  method BuildSubnet(spec: SubnetSpec) returns (subnet: Subnet)
    ensures subnet == CreateSubnet(spec)
  {
    subnet := Subnet(spec.prefixLength, spec.nameservers, None);
    if spec.vpcNetworkRangeId != "" {
      subnet := subnet.(vpcNetworkRangeId := Some(spec.vpcNetworkRangeId));
    }
  }

  method BuildNetworkCreatePayload(name: string, spec: NetworkSpec) returns (payload: CreateNetworkPayload)
    ensures payload == CreatePayload(name, spec)
  {
    payload := CreateNetworkPayload(name, None, None, None, None, None, None, None);
    if spec.dhcp.Some? {
      payload := payload.(dhcp := spec.dhcp);
    }
    if spec.routed.Some? {
      payload := payload.(routed := spec.routed);
    }
    if spec.routingTableId != "" {
      payload := payload.(routingTableId := Some(spec.routingTableId));
    }
    if spec.vpcId != "" {
      payload := payload.(vpcId := Some(spec.vpcId));
    }
    if spec.ipv4.Some? {
      var ipv4 := BuildSubnet(spec.ipv4.value);
      payload := payload.(ipv4 := Some(ipv4));
    }
    if spec.ipv6.Some? {
      var ipv6 := BuildSubnet(spec.ipv6.value);
      payload := payload.(ipv6 := Some(ipv6));
    }
    if |spec.labels| > 0 {
      var labels := ToInterfaceMap(spec.labels);
      payload := payload.(labels := Some(labels));
    }
  }

  method BuildNetworkUpdatePayload(name: string, dhcp: Option<bool>, routed: Option<bool>, routingTableId: string,
                                   labels: Option<DesiredLabels>)
    returns (payload: UpdateNetworkPayload)
    ensures payload.name == (if name != "" then Some(name) else None)
    ensures payload.dhcp == dhcp && payload.routed == routed
    ensures payload.routingTableId == (if routingTableId != "" then Some(routingTableId) else None)
    ensures payload.labels.Some? <==> labels.Some?
    ensures labels.Some? ==> payload.labels.value == Boxed(labels.value)
  {
    payload := NO_UPDATE;
    if name != "" {
      payload := payload.(name := Some(name));
    }
    if dhcp.Some? {
      payload := payload.(dhcp := dhcp);
    }
    if routed.Some? {
      payload := payload.(routed := routed);
    }
    if routingTableId != "" {
      payload := payload.(routingTableId := Some(routingTableId));
    }
    if labels.Some? {
      var boxed := ToInterfaceMap(labels.value);
      payload := payload.(labels := Some(boxed));
    }
  }

  /** The comparison of reconcileDrift with its local variables: the sentinel
      values "" and nil that mean "leave alone" never collide with a value
      that has to be sent. */
  method ChooseUpdate(spec: NetworkSpec, objectName: string, current: Network)
    returns (update: Option<UpdateNetworkPayload>)
    requires objectName != ""
    ensures update == Drift(spec, objectName, current)
  {
    var name := NameOr(spec.name, objectName);
    var nameChanged := current.name != name;
    var dhcpChanged := spec.dhcp.Some? && DerefBool(current.dhcp) != spec.dhcp.value;
    var routedChanged := spec.routed.Some? && DerefBool(current.routed) != spec.routed.value;
    var routingTableChanged := spec.routingTableId != "" && DerefString(current.routingTableId) != spec.routingTableId;
    var covered := LabelsEqual(current.labels, spec.labels);
    var labelsChanged := !covered;
    if nameChanged || dhcpChanged || routedChanged || routingTableChanged || labelsChanged {
      var updateName := "";
      if nameChanged {
        updateName := name;
      }
      var updateDhcp: Option<bool>, updateRouted: Option<bool> := None, None;
      if dhcpChanged {
        updateDhcp := spec.dhcp;
      }
      if routedChanged {
        updateRouted := spec.routed;
      }
      var updateRoutingTable := "";
      if routingTableChanged {
        updateRoutingTable := spec.routingTableId;
      }
      var updateLabels: Option<DesiredLabels> := None;
      if labelsChanged {
        updateLabels := Some(spec.labels);
      }
      var payload := BuildNetworkUpdatePayload(updateName, updateDhcp, updateRouted, updateRoutingTable, updateLabels);
      return Some(payload);
    }
    update := None;
  }
}
