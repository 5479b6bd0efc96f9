/**
  * The Azure VM Scale Set model builder of kops: for every instance group it
  * builds one scale-set task, with the security-group, load-balancer, subnet
  * and user-data references that go with it, and adds it to the build context
  * together with the cluster's two application security groups and, where
  * required, the scale set's role assignments.
  */
module AzureModel {
  import opened Wrappers
  import opened BoundedInts
  import opened GoStrings
  import opened Kops
  import opened AzureTasks

  /**
    * The errors the builder returns. Errors of collaborators are whatever
    * those return (typically `Foreign`), and are passed on unchanged.
    */
  datatype Error =
    | UnexpectedRole(group: string, role: InstanceGroupRole)
    | SizeMismatch(minSize: int32, maxSize: int32)
    | UnsupportedRootVolumeType(volumeType: Option<string>)
    | MalformedImageUrn(image: string)
    | TooManySSHKeys(count: nat)
    | SubnetCountMismatch(group: string, subnets: seq<string>)
    | UnexpectedSubnetType(group: string, subnetType: SubnetType)
    | Foreign(message: string)
      /** Not an error return: a Go nil-pointer panic, produced only by `GetStorageProfileAsWritten`. */
    | NilDereferencePanic

  /**
    * `VMScaleSetModelBuilder` with the parts of its embedded model context it
    * uses. Names and links built by helpers outside this file are opaque
    * strings; the functions it calls outside this file are function values.
    */
  datatype VMScaleSetModelBuilder = VMScaleSetModelBuilder(
    lifecycle: Lifecycle,
    resourceGroup: string,                // LinkToResourceGroup()
    virtualNetwork: string,               // LinkToVirtualNetwork()
    controlPlaneSecurityGroup: string,    // NameForApplicationSecurityGroupControlPlane()
    nodesSecurityGroup: string,           // NameForApplicationSecurityGroupNodes()
    loadBalancerName: string,             // NameForLoadBalancer()
    adminUser: string,                    // Cluster.Spec.CloudProvider.Azure.AdminUser
    sshPublicKeys: seq<string>,
    hasAPILoadBalancer: bool,             // Cluster.Spec.API.LoadBalancer != nil
    usesLegacyGossip: bool,               // Cluster.UsesLegacyGossip()
    instanceGroups: seq<InstanceGroup>,
    autoscalingGroupName: InstanceGroup -> string,
    linkToAzureSubnet: ClusterSubnetSpec -> string,
    gatherSubnets: InstanceGroup -> Result<seq<ClusterSubnetSpec>, Error>,
    resourceNodeUp: InstanceGroup -> Result<Resource, Error>,
    cloudTagsForInstanceGroup: InstanceGroup -> map<string, string>,
    zoneToAvailabilityZoneNumber: string -> Result<string, Error>,
    defaultInstanceGroupVolumeSize: InstanceGroupRole -> Result<int32, Error>)

  // ---------------------------------------------------------------------------
  // getCapacity
  // ---------------------------------------------------------------------------

  /** The size an unset bound falls back to: two for nodes, one for every other role. */
  function DefaultSize(role: InstanceGroupRole): int32 {
    if role == Node then 2 else 1
  }

  /**
    * `getCapacity`: a fixed group size. Each bound is its explicit value when
    * set and the role's default otherwise; the two must agree.
    */
  function GetCapacity(spec: InstanceGroupSpec): (r: Result<int64, Error>)
    ensures r.Ok? <==> spec.minSize.GetOr(DefaultSize(spec.role)) == spec.maxSize.GetOr(DefaultSize(spec.role))
    ensures r.Ok? ==> r.value as int == spec.minSize.GetOr(DefaultSize(spec.role)) as int
    ensures r.Err? ==> r.error == SizeMismatch(spec.minSize.GetOr(DefaultSize(spec.role)), spec.maxSize.GetOr(DefaultSize(spec.role)))
  {
    var minSize: int32 := if spec.minSize.Some? then spec.minSize.value else if spec.role.Node? then 2 else 1;
    var maxSize: int32 := if spec.maxSize.Some? then spec.maxSize.value else if spec.role.Node? then 2 else 1;
    if minSize != maxSize then Err(SizeMismatch(minSize, maxSize)) else Ok(minSize as int64)
  }

  /** With no bounds set, a node group has two instances and any other group one. */
  lemma CapacityWithoutBounds(spec: InstanceGroupSpec)
    requires spec.minSize.None? && spec.maxSize.None?
    ensures GetCapacity(spec) == Ok(if spec.role.Node? then 2 else 1)
  {
  }

  /** An explicit bound replaces the default on its own side only. */
  lemma CapacityOneBoundSet(spec: InstanceGroupSpec, n: int32)
    requires spec.minSize == Some(n) && spec.maxSize.None?
    ensures GetCapacity(spec).Ok? <==> n == DefaultSize(spec.role)
    ensures GetCapacity(spec.(minSize := None, maxSize := Some(n))).Ok? <==> n == DefaultSize(spec.role)
  {
  }

  // ---------------------------------------------------------------------------
  // parseImage
  // ---------------------------------------------------------------------------

  /** Images given by resource ID start with this. */
  const SubscriptionsPrefix: string := "/subscriptions/"

  /** The marketplace URN `publisher:offer:sku:version`. */
  function UrnString(publisher: string, offer: string, sku: string, version: string): string {
    Join([publisher, offer, sku, version], ':')
  }

  /**
    * `parseImage`: a resource ID is kept whole; anything else must split on
    * `:` into exactly four fields.
    */
  function ParseImage(image: string): (r: Result<ImageReference, Error>)
    ensures HasPrefix(image, SubscriptionsPrefix) <==> r.Ok? && r.value.ById?
    ensures r.Ok? && r.value.ById? ==> r.value.id == image
    ensures r.Err? ==> r.error == MalformedImageUrn(image)
  {
    if HasPrefix(image, SubscriptionsPrefix) then
      Ok(ById(image))
    else
      var l := Split(image, ':');
      if |l| != 4 then Err(MalformedImageUrn(image))
      else Ok(ByUrn(l[0], l[1], l[2], l[3]))
  }

  /** A string that is not a resource ID is accepted exactly when it holds three colons. */
  lemma ParseImageAcceptsUrn(image: string)
    requires !HasPrefix(image, SubscriptionsPrefix)
    ensures ParseImage(image).Ok? <==> Count(image, ':') == 3
  {
    SplitLength(image, ':');
  }

  /** An accepted URN's four fields hold no colon, are in order, and join back to the input. */
  lemma ParseImageUrnFields(image: string)
    requires ParseImage(image).Ok? && ParseImage(image).value.ByUrn?
    ensures var ref := ParseImage(image).value;
      UrnString(ref.publisher, ref.offer, ref.sku, ref.version) == image
      && ':' !in ref.publisher && ':' !in ref.offer && ':' !in ref.sku && ':' !in ref.version
  {
    var l := Split(image, ':');
    JoinSplit(image, ':');
    SplitFieldsFree(image, ':');
    assert l == [l[0], l[1], l[2], l[3]];
  }

  /**
    * Four colon-free fields joined into a URN parse back to themselves, unless
    * the publisher makes the URN look like a resource ID.
    */
  lemma UrnRoundTrip(publisher: string, offer: string, sku: string, version: string)
    requires ':' !in publisher && ':' !in offer && ':' !in sku && ':' !in version
    requires !HasPrefix(publisher, SubscriptionsPrefix)
    ensures ParseImage(UrnString(publisher, offer, sku, version)) == Ok(ByUrn(publisher, offer, sku, version))
  {
    var fields := [publisher, offer, sku, version];
    SplitJoin(fields, ':');
    assert fields[1..] == [offer, sku, version];
    HasPrefixOfJoined(publisher, Join(fields[1..], ':'), ':', SubscriptionsPrefix);
  }

  // ---------------------------------------------------------------------------
  // getStorageProfile
  // ---------------------------------------------------------------------------

  /** The only root volume type the builder supports. */
  const EphemeralOnOSCache: string := "EphemeralOnOSCache"

  /** The root volume size: the explicit one when set, else the role's default from the defaulter. */
  function VolumeSize(spec: InstanceGroupSpec, defaultVolumeSize: InstanceGroupRole -> Result<int32, Error>): Result<int32, Error> {
    if spec.rootVolume.Some? && spec.rootVolume.value.size.Some? then Ok(spec.rootVolume.value.size.value)
    else defaultVolumeSize(spec.role)
  }

  /** The root volume's type, unset when there is no root volume. */
  function RootVolumeType(spec: InstanceGroupSpec): Option<string> {
    if spec.rootVolume.Some? then spec.rootVolume.value.volumeType else None
  }

  /** The Linux OS disk created from the image, local ephemeral at the cache disk, cached read-only. */
  function EphemeralOSDisk(size: int32): OSDisk {
    OSDisk(Linux, FromImage, size, DiffDiskSettings(Local, CacheDisk), ReadOnly)
  }

  /**
    * `getStorageProfile`: resolves the disk size, then parses the image, then
    * accepts only the ephemeral root volume type; the first failing step's
    * error is the result. A missing root volume is reported like an unset
    * type (the source dereferences it instead; see `GetStorageProfileAsWritten`).
    */
  function GetStorageProfile(spec: InstanceGroupSpec, defaultVolumeSize: InstanceGroupRole -> Result<int32, Error>): (r: Result<StorageProfile, Error>)
    ensures r.Ok? <==> VolumeSize(spec, defaultVolumeSize).Ok? && ParseImage(spec.image).Ok? && RootVolumeType(spec) == Some(EphemeralOnOSCache)
    ensures VolumeSize(spec, defaultVolumeSize).Err? ==> r == Err(VolumeSize(spec, defaultVolumeSize).error)
    ensures VolumeSize(spec, defaultVolumeSize).Ok? && ParseImage(spec.image).Err? ==> r == Err(MalformedImageUrn(spec.image))
    ensures VolumeSize(spec, defaultVolumeSize).Ok? && ParseImage(spec.image).Ok? && RootVolumeType(spec) != Some(EphemeralOnOSCache)
      ==> r == Err(UnsupportedRootVolumeType(RootVolumeType(spec)))
    ensures r.Ok? ==> r.value.imageReference == ParseImage(spec.image).value
    ensures r.Ok? ==> (r.value.osDisk.osType == Linux && r.value.osDisk.createOption == FromImage
      && r.value.osDisk.diffDiskSettings == DiffDiskSettings(Local, CacheDisk) && r.value.osDisk.caching == ReadOnly)
    ensures r.Ok? ==> r.value.osDisk.diskSizeGB == (if spec.rootVolume.Some? && spec.rootVolume.value.size.Some?
      then spec.rootVolume.value.size.value else defaultVolumeSize(spec.role).value)
  {
    var volumeSize :- VolumeSize(spec, defaultVolumeSize);
    var imageReference :- ParseImage(spec.image);
    if spec.rootVolume.Some? && spec.rootVolume.value.volumeType.Some? && spec.rootVolume.value.volumeType.value == EphemeralOnOSCache then
      Ok(StorageProfile(imageReference, EphemeralOSDisk(volumeSize)))
    else
      Err(UnsupportedRootVolumeType(RootVolumeType(spec)))
  }

  /**
    * `getStorageProfile` as written: when there is no root volume at all, the
    * final error message reads the type through the nil root volume, which
    * panics in Go.
    */
  function GetStorageProfileAsWritten(spec: InstanceGroupSpec, defaultVolumeSize: InstanceGroupRole -> Result<int32, Error>): (r: Result<StorageProfile, Error>)
    ensures spec.rootVolume.Some? ==> r == GetStorageProfile(spec, defaultVolumeSize)
  {
    var volumeSize :- VolumeSize(spec, defaultVolumeSize);
    var imageReference :- ParseImage(spec.image);
    if spec.rootVolume.Some? && spec.rootVolume.value.volumeType.Some? && spec.rootVolume.value.volumeType.value == EphemeralOnOSCache then
      Ok(StorageProfile(imageReference, EphemeralOSDisk(volumeSize)))
    else if spec.rootVolume.None? then
      Err(NilDereferencePanic)
    else
      Err(UnsupportedRootVolumeType(spec.rootVolume.value.volumeType))
  }

  /**
    * A group without a root volume, whose default size and image are fine,
    * makes the source panic instead of returning an error; the corrected
    * model reports the unset volume type.
    */
  lemma NilRootVolumePanics(spec: InstanceGroupSpec, defaultVolumeSize: InstanceGroupRole -> Result<int32, Error>)
    requires spec.rootVolume.None?
    requires defaultVolumeSize(spec.role).Ok? && ParseImage(spec.image).Ok?
    ensures GetStorageProfileAsWritten(spec, defaultVolumeSize) == Err(NilDereferencePanic)
    ensures GetStorageProfile(spec, defaultVolumeSize) == Err(UnsupportedRootVolumeType(None))
  {
  }

  // ---------------------------------------------------------------------------
  // Pieces of buildVMScaleSetTask
  // ---------------------------------------------------------------------------

  /**
    * The availability zone numbers of `zones`, in order, stopping at the
    * first zone the mapper rejects and returning its error.
    */
  function MapZones(zoneToNumber: string -> Result<string, Error>, zones: seq<string>): (r: Result<seq<string>, Error>)
    ensures r.Ok? ==> |r.value| == |zones|
    decreases |zones|
  {
    if zones == [] then Ok([])
    else
      var previous :- MapZones(zoneToNumber, zones[..|zones| - 1]);
      var az :- zoneToNumber(zones[|zones| - 1]);
      Ok(previous + [az])
  }

  /**
    * The zones map exactly when every zone does, each to its own number in
    * order; otherwise the error is that of the first zone that fails.
    */
  lemma {:induction false} MapZonesShape(zoneToNumber: string -> Result<string, Error>, zones: seq<string>)
    ensures var r := MapZones(zoneToNumber, zones);
      (r.Ok? <==> forall i :: 0 <= i < |zones| ==> zoneToNumber(zones[i]).Ok?)
      && (r.Ok? ==> forall i :: 0 <= i < |zones| ==> zoneToNumber(zones[i]) == Ok(r.value[i]))
      && (r.Err? ==> exists i :: (0 <= i < |zones| && zoneToNumber(zones[i]) == Err(r.error)
            && forall j :: 0 <= j < i ==> zoneToNumber(zones[j]).Ok?))
    decreases |zones|
  {
    if zones != [] {
      var front := zones[..|zones| - 1];
      MapZonesShape(zoneToNumber, front);
      assert forall i :: 0 <= i < |front| ==> zones[i] == front[i];
    }
  }

  /** Once a prefix of the zones fails, every extension of it fails the same way. */
  lemma {:induction false} MapZonesErrorPersists(zoneToNumber: string -> Result<string, Error>, zones: seq<string>, more: seq<string>)
    requires MapZones(zoneToNumber, zones).Err?
    ensures MapZones(zoneToNumber, zones + more) == MapZones(zoneToNumber, zones)
    decreases |more|
  {
    if more != [] {
      var shorter := more[..|more| - 1];
      MapZonesErrorPersists(zoneToNumber, zones, shorter);
      assert (zones + more)[..|zones + more| - 1] == zones + shorter;
    } else {
      assert zones + more == zones;
    }
  }

  /** The group's role picks the one security group its scale set joins. */
  function SecurityGroupsFor(b: VMScaleSetModelBuilder, ig: InstanceGroup): (r: Result<seq<string>, Error>)
    ensures r.Ok? <==> ig.spec.role.ControlPlane? || ig.spec.role.Node?
    ensures ig.spec.role.ControlPlane? ==> r == Ok([b.controlPlaneSecurityGroup])
    ensures ig.spec.role.Node? ==> r == Ok([b.nodesSecurityGroup])
    ensures r.Err? ==> r.error == UnexpectedRole(ig.name, ig.spec.role)
  {
    match ig.spec.role
    case ControlPlane => Ok([b.controlPlaneSecurityGroup])
    case Node => Ok([b.nodesSecurityGroup])
    case _ => Err(UnexpectedRole(ig.name, ig.spec.role))
  }

  /** At most one cluster SSH key; the key, when there is one. */
  function SSHPublicKeyFor(keys: seq<string>): (r: Result<Option<string>, Error>)
    ensures r.Ok? <==> |keys| <= 1
    ensures r.Ok? ==> (r.value.Some? <==> |keys| == 1)
    ensures r.Ok? && r.value.Some? ==> r.value.value == keys[0]
    ensures r.Err? ==> r.error == TooManySSHKeys(|keys|)
  {
    var n := |keys|;
    if n > 0 then
      if n > 1 then Err(TooManySSHKeys(n)) else Ok(Some(keys[0]))
    else
      Ok(None)
  }

  /** The single subnet a group must resolve to. */
  function ExactlyOneSubnet(ig: InstanceGroup, subnets: seq<ClusterSubnetSpec>): (r: Result<ClusterSubnetSpec, Error>)
    ensures r.Ok? <==> |subnets| == 1
    ensures r.Ok? ==> r.value == subnets[0]
    ensures r.Err? ==> r.error == SubnetCountMismatch(ig.name, ig.spec.subnets)
  {
    if |subnets| != 1 then Err(SubnetCountMismatch(ig.name, ig.spec.subnets)) else Ok(subnets[0])
  }

  /**
    * Whether the scale set's instances get public IPs: public and utility
    * subnets default to yes and honour the group's explicit choice; dual-stack
    * and private subnets never do; any other subnet type is an error.
    */
  function RequirePublicIP(ig: InstanceGroup, subnetType: SubnetType): (r: Result<bool, Error>)
    ensures subnetType.Public? || subnetType.Utility? ==> r == Ok(ig.spec.associatePublicIP.GetOr(true))
    ensures subnetType.DualStack? || subnetType.Private? ==> r == Ok(false)
    ensures subnetType.UnknownSubnetType? ==> r == Err(UnexpectedSubnetType(ig.name, subnetType))
  {
    match subnetType
    case Public | Utility =>
      var requirePublicIP := true;
      if ig.spec.associatePublicIP != None then Ok(ig.spec.associatePublicIP.value) else Ok(requirePublicIP)
    case DualStack | Private => Ok(false)
    case UnknownSubnetType(_) => Err(UnexpectedSubnetType(ig.name, subnetType))
  }

  /** The load balancer a scale set is attached to: the API one, for control-plane groups only. */
  function LoadBalancerFor(b: VMScaleSetModelBuilder, ig: InstanceGroup): (r: Option<string>)
    ensures r.Some? <==> ig.spec.role.ControlPlane? && b.hasAPILoadBalancer
    ensures r.Some? ==> r.value == b.loadBalancerName
  {
    if ig.spec.role == ControlPlane && b.hasAPILoadBalancer then Some(b.loadBalancerName) else None
  }

  // ---------------------------------------------------------------------------
  // buildVMScaleSetTask
  // ---------------------------------------------------------------------------

  /**
    * The scale-set task for `ig` named `name`, or the error of the first check
    * that fails, in the source's order: zones, role, capacity, storage
    * profile, SSH key, user data, subnets, subnet type.
    */
  function ScaleSetFor(b: VMScaleSetModelBuilder, name: string, ig: InstanceGroup): Result<VMScaleSet, Error> {
    var zones :- MapZones(b.zoneToAvailabilityZoneNumber, ig.spec.zones);
    ScaleSetInZones(b, name, ig, zones)
  }

  /** The rest of `ScaleSetFor`, once the zones have been mapped to `zones`. */
  function ScaleSetInZones(b: VMScaleSetModelBuilder, name: string, ig: InstanceGroup, zones: seq<string>): Result<VMScaleSet, Error> {
    var securityGroups :- SecurityGroupsFor(b, ig);
    var capacity :- GetCapacity(ig.spec);
    var storageProfile :- GetStorageProfile(ig.spec, b.defaultInstanceGroupVolumeSize);
    var sshPublicKey :- SSHPublicKeyFor(b.sshPublicKeys);
    var userData :- b.resourceNodeUp(ig);
    var subnets :- b.gatherSubnets(ig);
    var subnet :- ExactlyOneSubnet(ig, subnets);
    var requirePublicIP :- RequirePublicIP(ig, subnet.subnetType);
    Ok(VMScaleSet(
      name := name,
      lifecycle := b.lifecycle,
      resourceGroup := b.resourceGroup,
      virtualNetwork := b.virtualNetwork,
      skuName := ig.spec.machineType,
      computerNamePrefix := ig.name,
      adminUser := b.adminUser,
      zones := zones,
      applicationSecurityGroups := securityGroups,
      capacity := capacity,
      storageProfile := storageProfile,
      sshPublicKey := sshPublicKey,
      userData := userData,
      subnet := b.linkToAzureSubnet(subnet),
      requirePublicIP := requirePublicIP,
      loadBalancer := LoadBalancerFor(b, ig),
      tags := b.cloudTagsForInstanceGroup(ig)))
  }

  /** The scale set is built exactly when every check passes. */
  lemma ScaleSetSucceedsIff(b: VMScaleSetModelBuilder, name: string, ig: InstanceGroup)
    ensures ScaleSetFor(b, name, ig).Ok? <==>
      (forall i :: 0 <= i < |ig.spec.zones| ==> b.zoneToAvailabilityZoneNumber(ig.spec.zones[i]).Ok?)
      && (ig.spec.role.ControlPlane? || ig.spec.role.Node?)
      && GetCapacity(ig.spec).Ok?
      && GetStorageProfile(ig.spec, b.defaultInstanceGroupVolumeSize).Ok?
      && |b.sshPublicKeys| <= 1
      && b.resourceNodeUp(ig).Ok?
      && b.gatherSubnets(ig).Ok? && |b.gatherSubnets(ig).value| == 1
      && !b.gatherSubnets(ig).value[0].subnetType.UnknownSubnetType?
  {
    MapZonesShape(b.zoneToAvailabilityZoneNumber, ig.spec.zones);
  }

  /** The task has one availability zone per input zone, in order; a zone error is returned as is. */
  lemma ScaleSetZones(b: VMScaleSetModelBuilder, name: string, ig: InstanceGroup)
    ensures ScaleSetFor(b, name, ig).Ok? ==> var t := ScaleSetFor(b, name, ig).value;
      |t.zones| == |ig.spec.zones|
      && forall i :: 0 <= i < |ig.spec.zones| ==> b.zoneToAvailabilityZoneNumber(ig.spec.zones[i]) == Ok(t.zones[i])
    ensures MapZones(b.zoneToAvailabilityZoneNumber, ig.spec.zones).Err? ==>
      ScaleSetFor(b, name, ig) == Err(MapZones(b.zoneToAvailabilityZoneNumber, ig.spec.zones).error)
  {
    MapZonesShape(b.zoneToAvailabilityZoneNumber, ig.spec.zones);
  }

  /**
    * A control-plane scale set joins only the control-plane security group and
    * a node one only the nodes group; a load balancer is attached exactly to
    * control-plane scale sets of clusters with an API load balancer.
    */
  lemma ScaleSetSecurityGroupsAndLoadBalancer(b: VMScaleSetModelBuilder, name: string, ig: InstanceGroup)
    ensures ScaleSetFor(b, name, ig).Ok? ==> var t := ScaleSetFor(b, name, ig).value;
      (ig.spec.role.ControlPlane? ==> t.applicationSecurityGroups == [b.controlPlaneSecurityGroup])
      && (ig.spec.role.Node? ==> t.applicationSecurityGroups == [b.nodesSecurityGroup])
      && (t.loadBalancer.Some? <==> ig.spec.role.ControlPlane? && b.hasAPILoadBalancer)
    ensures MapZones(b.zoneToAvailabilityZoneNumber, ig.spec.zones).Ok? && !(ig.spec.role.ControlPlane? || ig.spec.role.Node?) ==>
      ScaleSetFor(b, name, ig) == Err(UnexpectedRole(ig.name, ig.spec.role))
  {
  }

  /**
    * With one cluster SSH key the task carries it, with none it has none; a
    * built task always came from exactly one gathered subnet, and its public
    * IP flag follows that subnet's tier.
    */
  lemma ScaleSetKeyAndSubnet(b: VMScaleSetModelBuilder, name: string, ig: InstanceGroup)
    ensures ScaleSetFor(b, name, ig).Ok? ==> var t := ScaleSetFor(b, name, ig).value;
      |b.sshPublicKeys| <= 1
      && (|b.sshPublicKeys| == 1 ==> t.sshPublicKey == Some(b.sshPublicKeys[0]))
      && (|b.sshPublicKeys| == 0 ==> t.sshPublicKey == None)
      && b.gatherSubnets(ig).Ok? && |b.gatherSubnets(ig).value| == 1
      && t.subnet == b.linkToAzureSubnet(b.gatherSubnets(ig).value[0])
      && RequirePublicIP(ig, b.gatherSubnets(ig).value[0].subnetType) == Ok(t.requirePublicIP)
  {
  }

  /** A built task carries the name it was built under and the group's machine type and name prefix. */
  lemma ScaleSetNamed(b: VMScaleSetModelBuilder, name: string, ig: InstanceGroup)
    ensures ScaleSetFor(b, name, ig).Ok? ==> var t := ScaleSetFor(b, name, ig).value;
      t.name == name && t.skuName == ig.spec.machineType && t.computerNamePrefix == ig.name
      && t.resourceGroup == b.resourceGroup && t.virtualNetwork == b.virtualNetwork
  {
  }

  /**
    * The zone loop at the head of `buildVMScaleSetTask`: maps the group's
    * zones one by one, returning the first error at once.
    */
  method MapAvailabilityZones(zoneToNumber: string -> Result<string, Error>, zones: seq<string>) returns (r: Result<seq<string>, Error>)
    ensures r == MapZones(zoneToNumber, zones)
  {
    var azNumbers: seq<string> := [];
    var i := 0;
    while i < |zones|
      invariant 0 <= i <= |zones|
      invariant MapZones(zoneToNumber, zones[..i]) == Ok(azNumbers)
    {
      var az := zoneToNumber(zones[i]);
      assert zones[..i + 1][..i] == zones[..i];
      if az.Err? {
        MapZonesErrorPersists(zoneToNumber, zones[..i + 1], zones[i + 1..]);
        assert zones[..i + 1] + zones[i + 1..] == zones;
        return Err(az.error);
      }
      azNumbers := azNumbers + [az.value];
      i := i + 1;
    }
    assert zones[..i] == zones;
    return Ok(azNumbers);
  }

  /**
    * `buildVMScaleSetTask`: maps the zones, then fills in the task and runs
    * the remaining checks, returning at the first failure.
    */
  method BuildVMScaleSetTask(b: VMScaleSetModelBuilder, name: string, ig: InstanceGroup) returns (r: Result<VMScaleSet, Error>)
    ensures r == ScaleSetFor(b, name, ig)
  {
    var azNumbers :- MapAvailabilityZones(b.zoneToAvailabilityZoneNumber, ig.spec.zones);
    assert ScaleSetFor(b, name, ig) == ScaleSetInZones(b, name, ig, azNumbers);

    var securityGroups: seq<string> := [];
    match ig.spec.role {
      case ControlPlane =>
        securityGroups := [b.controlPlaneSecurityGroup];
      case Node =>
        securityGroups := [b.nodesSecurityGroup];
      case _ =>
        return Err(UnexpectedRole(ig.name, ig.spec.role));
    }
    assert SecurityGroupsFor(b, ig) == Ok(securityGroups);

    var capacity := GetCapacity(ig.spec);
    if capacity.Err? {
      return Err(capacity.error);
    }
    var storageProfile := GetStorageProfile(ig.spec, b.defaultInstanceGroupVolumeSize);
    if storageProfile.Err? {
      return Err(storageProfile.error);
    }

    var sshPublicKey: Option<string> := None;
    var n := |b.sshPublicKeys|;
    if n > 0 {
      if n > 1 {
        return Err(TooManySSHKeys(n));
      }
      sshPublicKey := Some(b.sshPublicKeys[0]);
    }
    assert SSHPublicKeyFor(b.sshPublicKeys) == Ok(sshPublicKey);

    var userData := b.resourceNodeUp(ig);
    if userData.Err? {
      return Err(userData.error);
    }
    var subnets := b.gatherSubnets(ig);
    if subnets.Err? {
      return Err(subnets.error);
    }
    if |subnets.value| != 1 {
      return Err(SubnetCountMismatch(ig.name, ig.spec.subnets));
    }
    var subnet := subnets.value[0];

    var requirePublicIP: bool;
    match subnet.subnetType {
      case Public | Utility =>
        requirePublicIP := true;
        if ig.spec.associatePublicIP.Some? {
          requirePublicIP := ig.spec.associatePublicIP.value;
        }
      case DualStack | Private =>
        requirePublicIP := false;
      case UnknownSubnetType(_) =>
        return Err(UnexpectedSubnetType(ig.name, subnet.subnetType));
    }
    assert RequirePublicIP(ig, subnet.subnetType) == Ok(requirePublicIP);

    var loadBalancer: Option<string> := None;
    if ig.spec.role == ControlPlane && b.hasAPILoadBalancer {
      loadBalancer := Some(b.loadBalancerName);
    }
    assert LoadBalancerFor(b, ig) == loadBalancer;

    r := Ok(VMScaleSet(
      name := name,
      lifecycle := b.lifecycle,
      resourceGroup := b.resourceGroup,
      virtualNetwork := b.virtualNetwork,
      skuName := ig.spec.machineType,
      computerNamePrefix := ig.name,
      adminUser := b.adminUser,
      zones := azNumbers,
      applicationSecurityGroups := securityGroups,
      capacity := capacity.value,
      storageProfile := storageProfile.value,
      sshPublicKey := sshPublicKey,
      userData := userData.value,
      subnet := b.linkToAzureSubnet(subnet),
      requirePublicIP := requirePublicIP,
      loadBalancer := loadBalancer,
      tags := b.cloudTagsForInstanceGroup(ig)));
  }

  // ---------------------------------------------------------------------------
  // buildRoleAssignmentTask and the role table
  // ---------------------------------------------------------------------------

  /** Built-in role "Owner". */
  const OwnerRoleId: string := "8e3af657-a8ff-443c-a75c-2fe8c4bcb635"

  /** Built-in role "Storage Blob Data Contributor". */
  const BlobRoleId: string := "ba92f5b4-2d11-453d-a403-e96b0029c9fe"

  /** The keys of the table of built-in roles granted to a scale set's identity. */
  datatype RoleKey = Owner | Blob

  /** All keys of the role table; Go iterates the table in no fixed order. */
  const RoleKeys: set<RoleKey> := {Owner, Blob}

  /** The key as written in the table and in role assignment names. */
  function RoleKeyName(k: RoleKey): string {
    match k
    case Owner => "owner"
    case Blob => "blob"
  }

  /** The role table: the built-in role ID of each key. */
  function RoleDefinitionId(k: RoleKey): string {
    match k
    case Owner => OwnerRoleId
    case Blob => BlobRoleId
  }

  /**
    * `buildRoleAssignmentTask`: grants the role `roleDefId` to the scale set's
    * identity over the resource group, under the name `<scale set>-<roleKey>`.
    */
  function BuildRoleAssignmentTask(b: VMScaleSetModelBuilder, scaleSet: string, roleKey: string, roleDefId: string): (r: RoleAssignment)
    ensures r.scaleSet == scaleSet && r.roleDefId == roleDefId
    ensures r.lifecycle == b.lifecycle && r.resourceGroup == b.resourceGroup
  {
    RoleAssignment(
      name := scaleSet + "-" + roleKey,
      lifecycle := b.lifecycle,
      resourceGroup := b.resourceGroup,
      scaleSet := scaleSet,
      roleDefId := roleDefId)
  }

  /**
    * The role key can be read back from a role assignment's name: two role
    * assignments of one scale set share a name exactly when they share a key.
    */
  lemma RoleAssignmentNameEncodesKey(b: VMScaleSetModelBuilder, scaleSet: string, key1: string, roleDefId1: string, key2: string, roleDefId2: string)
    ensures var r := BuildRoleAssignmentTask(b, scaleSet, key1, roleDefId1);
      |r.name| == |scaleSet| + 1 + |key1|
      && r.name[..|scaleSet|] == scaleSet && r.name[|scaleSet|] == '-' && r.name[|scaleSet| + 1..] == key1
    ensures BuildRoleAssignmentTask(b, scaleSet, key1, roleDefId1).name == BuildRoleAssignmentTask(b, scaleSet, key2, roleDefId2).name
      <==> key1 == key2
  {
    var n1 := BuildRoleAssignmentTask(b, scaleSet, key1, roleDefId1).name;
    var n2 := BuildRoleAssignmentTask(b, scaleSet, key2, roleDefId2).name;
    assert n1[|scaleSet| + 1..] == key1;
    assert n2[|scaleSet| + 1..] == key2;
  }

  /** Whether a group's scale set gets role assignments: control-plane groups, or all under legacy gossip. */
  predicate NeedsRoleAssignments(b: VMScaleSetModelBuilder, ig: InstanceGroup) {
    ig.spec.role.ControlPlane? || b.usesLegacyGossip
  }

  /** One role assignment for `scaleSet` per role table entry. */
  function TableRoleAssignments(b: VMScaleSetModelBuilder, scaleSet: string): set<RoleAssignment> {
    set k | k in RoleKeys :: BuildRoleAssignmentTask(b, scaleSet, RoleKeyName(k), RoleDefinitionId(k))
  }

  /** The role assignments added for the scale set `vmss` of group `ig`: the table's, when needed. */
  function RoleAssignmentsFor(b: VMScaleSetModelBuilder, ig: InstanceGroup, vmss: VMScaleSet): set<RoleAssignment> {
    if NeedsRoleAssignments(b, ig) then TableRoleAssignments(b, vmss.name) else {}
  }

  /**
    * The role table yields exactly two role assignments, `<name>-owner` with
    * the Owner role and `<name>-blob` with the Storage Blob Data Contributor
    * role.
    */
  lemma TableRoleAssignmentsShape(b: VMScaleSetModelBuilder, scaleSet: string)
    ensures TableRoleAssignments(b, scaleSet) == {
      RoleAssignment(scaleSet + "-owner", b.lifecycle, b.resourceGroup, scaleSet, OwnerRoleId),
      RoleAssignment(scaleSet + "-blob", b.lifecycle, b.resourceGroup, scaleSet, BlobRoleId)}
    ensures |TableRoleAssignments(b, scaleSet)| == 2
  {
    var owner := RoleAssignment(scaleSet + "-owner", b.lifecycle, b.resourceGroup, scaleSet, OwnerRoleId);
    var blob := RoleAssignment(scaleSet + "-blob", b.lifecycle, b.resourceGroup, scaleSet, BlobRoleId);
    assert BuildRoleAssignmentTask(b, scaleSet, RoleKeyName(Owner), RoleDefinitionId(Owner)) == owner by {
      assert scaleSet + "-" + "owner" == scaleSet + "-owner";
    }
    assert BuildRoleAssignmentTask(b, scaleSet, RoleKeyName(Blob), RoleDefinitionId(Blob)) == blob by {
      assert scaleSet + "-" + "blob" == scaleSet + "-blob";
    }
    var s := TableRoleAssignments(b, scaleSet);
    assert owner in s && blob in s;
    forall ra | ra in s
      ensures ra == owner || ra == blob
    {
      var k :| k in RoleKeys && ra == BuildRoleAssignmentTask(b, scaleSet, RoleKeyName(k), RoleDefinitionId(k));
      if k == Owner {
        assert ra == owner;
      } else {
        assert ra == blob;
      }
    }
    assert s == {owner, blob};
    assert owner.roleDefId != blob.roleDefId by {
      assert OwnerRoleId[0] != BlobRoleId[0];
    }
  }

  /**
    * A scale set whose group needs role assignments gets the table's two;
    * any other scale set gets none.
    */
  lemma RoleAssignmentsForShape(b: VMScaleSetModelBuilder, ig: InstanceGroup, vmss: VMScaleSet)
    ensures NeedsRoleAssignments(b, ig) ==> RoleAssignmentsFor(b, ig, vmss) == {
      RoleAssignment(vmss.name + "-owner", b.lifecycle, b.resourceGroup, vmss.name, OwnerRoleId),
      RoleAssignment(vmss.name + "-blob", b.lifecycle, b.resourceGroup, vmss.name, BlobRoleId)}
    ensures NeedsRoleAssignments(b, ig) ==> |RoleAssignmentsFor(b, ig, vmss)| == 2
    ensures !NeedsRoleAssignments(b, ig) ==> RoleAssignmentsFor(b, ig, vmss) == {}
  {
    TableRoleAssignmentsShape(b, vmss.name);
  }

  // ---------------------------------------------------------------------------
  // Build
  // ---------------------------------------------------------------------------

  /** The cluster's control-plane application security group, with no tags. */
  function ControlPlaneSecurityGroupTask(b: VMScaleSetModelBuilder): (t: Task)
    ensures t.SecurityGroupTask? && t.asg.name == b.controlPlaneSecurityGroup
    ensures t.asg.lifecycle == b.lifecycle && t.asg.resourceGroup == b.resourceGroup && t.asg.tags == map[]
  {
    SecurityGroupTask(ApplicationSecurityGroup(b.controlPlaneSecurityGroup, b.lifecycle, b.resourceGroup, map[]))
  }

  /** The cluster's nodes application security group, with no tags. */
  function NodesSecurityGroupTask(b: VMScaleSetModelBuilder): (t: Task)
    ensures t.SecurityGroupTask? && t.asg.name == b.nodesSecurityGroup
    ensures t.asg.lifecycle == b.lifecycle && t.asg.resourceGroup == b.resourceGroup && t.asg.tags == map[]
  {
    SecurityGroupTask(ApplicationSecurityGroup(b.nodesSecurityGroup, b.lifecycle, b.resourceGroup, map[]))
  }

  /**
    * Every scale set that is built joins exactly one application security
    * group, and it is one of the two that `Build` adds first: the
    * control-plane group for control-plane scale sets, the nodes group for
    * node scale sets.
    */
  lemma ScaleSetJoinsAddedSecurityGroup(b: VMScaleSetModelBuilder, name: string, ig: InstanceGroup)
    ensures ScaleSetFor(b, name, ig).Ok? ==> var t := ScaleSetFor(b, name, ig).value;
      (ig.spec.role.ControlPlane? && t.applicationSecurityGroups == [ControlPlaneSecurityGroupTask(b).asg.name])
      || (ig.spec.role.Node? && t.applicationSecurityGroups == [NodesSecurityGroupTask(b).asg.name])
  {
    ScaleSetSecurityGroupsAndLoadBalancer(b, name, ig);
    ScaleSetSucceedsIff(b, name, ig);
  }

  /** What one instance group contributes: its scale set and the role assignments granted to it. */
  datatype GroupTasks = GroupTasks(scaleSet: VMScaleSet, roleAssignments: set<RoleAssignment>)

  /** The groups whose tasks a build emits, in order, and the error that stopped it, if any. */
  datatype BuildPlan = BuildPlan(groups: seq<GroupTasks>, err: Option<Error>)

  /**
    * What building one group yields: its scale set with the role assignments
    * granted to it, or the error. The scale set carries the group's
    * autoscaling group name, and the group gets the `-owner` and `-blob`
    * assignments of that name when it needs role assignments, and none
    * otherwise.
    */
  function GroupOutcome(b: VMScaleSetModelBuilder, ig: InstanceGroup): (r: Result<GroupTasks, Error>)
    ensures r.Ok? ==> var name := b.autoscalingGroupName(ig);
      r.value.scaleSet.name == name
      && r.value.roleAssignments == (if NeedsRoleAssignments(b, ig) then {
        RoleAssignment(name + "-owner", b.lifecycle, b.resourceGroup, name, OwnerRoleId),
        RoleAssignment(name + "-blob", b.lifecycle, b.resourceGroup, name, BlobRoleId)} else {})
  {
    var vmss :- ScaleSetFor(b, b.autoscalingGroupName(ig), ig);
    ScaleSetNamed(b, b.autoscalingGroupName(ig), ig);
    RoleAssignmentsForShape(b, ig, vmss);
    Ok(GroupTasks(vmss, RoleAssignmentsFor(b, ig, vmss)))
  }

  /**
    * The outcomes of `igs`, taken in order, up to the first group that fails;
    * that group's error ends the plan.
    */
  function PlanOf(outcome: InstanceGroup -> Result<GroupTasks, Error>, igs: seq<InstanceGroup>): BuildPlan
    decreases |igs|
  {
    if igs == [] then BuildPlan([], None)
    else
      var prior := PlanOf(outcome, igs[..|igs| - 1]);
      if prior.err.Some? then prior
      else
        match outcome(igs[|igs| - 1])
        case Err(e) => BuildPlan(prior.groups, Some(e))
        case Ok(g) => BuildPlan(prior.groups + [g], None)
  }

  /** The plan of a build over `igs`: each group's outcome, in order, up to the first failure. */
  function PlanGroups(b: VMScaleSetModelBuilder, igs: seq<InstanceGroup>): BuildPlan {
    PlanOf(ig => GroupOutcome(b, ig), igs)
  }

  /**
    * A plan holds the outcomes of the groups up to the first failing one; it
    * ends without error exactly when every group succeeded, and otherwise
    * with the error of the first group that did not.
    */
  lemma {:induction false} PlanOfShape(outcome: InstanceGroup -> Result<GroupTasks, Error>, igs: seq<InstanceGroup>)
    ensures var p := PlanOf(outcome, igs);
      |p.groups| <= |igs|
      && (p.err.None? <==> |p.groups| == |igs|)
      && (forall i :: 0 <= i < |p.groups| ==> outcome(igs[i]) == Ok(p.groups[i]))
      && (p.err.Some? ==> outcome(igs[|p.groups|]) == Err(p.err.value))
    decreases |igs|
  {
    if igs != [] {
      var front := igs[..|igs| - 1];
      PlanOfShape(outcome, front);
      assert forall i :: 0 <= i < |front| ==> igs[i] == front[i];
    }
  }

  /**
    * The plan of a build holds one entry per group up to the first failing
    * one, each the scale set built for that group with its role assignments;
    * it ends without error exactly when every group was built, and otherwise
    * with the error of the first group that was not.
    */
  lemma PlanGroupsShape(b: VMScaleSetModelBuilder, igs: seq<InstanceGroup>)
    ensures var p := PlanGroups(b, igs);
      |p.groups| <= |igs|
      && (p.err.None? <==> |p.groups| == |igs|)
      && (forall i :: 0 <= i < |p.groups| ==>
            ScaleSetFor(b, b.autoscalingGroupName(igs[i]), igs[i]) == Ok(p.groups[i].scaleSet)
            && p.groups[i].roleAssignments == RoleAssignmentsFor(b, igs[i], p.groups[i].scaleSet))
      && (p.err.Some? ==> ScaleSetFor(b, b.autoscalingGroupName(igs[|p.groups|]), igs[|p.groups|]) == Err(p.err.value))
  {
    var outcome := ig => GroupOutcome(b, ig);
    PlanOfShape(outcome, igs);
    var p := PlanGroups(b, igs);
    forall i | 0 <= i < |p.groups|
      ensures ScaleSetFor(b, b.autoscalingGroupName(igs[i]), igs[i]) == Ok(p.groups[i].scaleSet)
      ensures p.groups[i].roleAssignments == RoleAssignmentsFor(b, igs[i], p.groups[i].scaleSet)
    {
      assert outcome(igs[i]) == Ok(p.groups[i]);
    }
    if p.err.Some? {
      assert outcome(igs[|p.groups|]) == Err(p.err.value);
    }
  }

  /** Once the plan of some groups has failed, later groups change nothing. */
  lemma {:induction false} PlanOfErrorPersists(outcome: InstanceGroup -> Result<GroupTasks, Error>, igs: seq<InstanceGroup>, more: seq<InstanceGroup>)
    requires PlanOf(outcome, igs).err.Some?
    ensures PlanOf(outcome, igs + more) == PlanOf(outcome, igs)
    decreases |more|
  {
    if more != [] {
      var shorter := more[..|more| - 1];
      PlanOfErrorPersists(outcome, igs, shorter);
      assert (igs + more)[..|igs + more| - 1] == igs + shorter;
    } else {
      assert igs + more == igs;
    }
  }

  /** `block` lists the scale set of `g` and then each of its role assignments once, in any order. */
  ghost predicate BlockRealizes(block: seq<Task>, g: GroupTasks) {
    |block| == 1 + |g.roleAssignments|
    && block[0] == ScaleSetTask(g.scaleSet)
    && (forall j :: 1 <= j < |block| ==> block[j].RoleAssignmentTask? && block[j].assignment in g.roleAssignments)
    && (forall ra :: ra in g.roleAssignments ==> RoleAssignmentTask(ra) in block[1..])
  }

  /** `added` is the blocks of `groups`, one after another in the groups' order. */
  ghost predicate Realizes(added: seq<Task>, groups: seq<GroupTasks>)
    decreases |groups|
  {
    if groups == [] then added == []
    else
      var g := groups[|groups| - 1];
      var n := 1 + |g.roleAssignments|;
      n <= |added|
      && Realizes(added[..|added| - n], groups[..|groups| - 1])
      && BlockRealizes(added[|added| - n..], g)
  }

  /** Appending a group's block to a realization of earlier groups realizes them all. */
  lemma RealizesAppend(added: seq<Task>, groups: seq<GroupTasks>, block: seq<Task>, g: GroupTasks)
    requires Realizes(added, groups) && BlockRealizes(block, g)
    ensures Realizes(added + block, groups + [g])
  {
  }

  /**
    * The tasks `Build` adds: the control-plane and nodes security groups,
    * then the blocks of the planned groups; the returned error is the plan's.
    */
  ghost predicate BuildEmits(b: VMScaleSetModelBuilder, added: seq<Task>, err: Option<Error>) {
    var plan := PlanGroups(b, b.instanceGroups);
    2 <= |added|
    && added[0] == ControlPlaneSecurityGroupTask(b)
    && added[1] == NodesSecurityGroupTask(b)
    && Realizes(added[2..], plan.groups)
    && err == plan.err
  }

  /** `fi.CloudupModelBuilderContext`: the tasks added so far, in the order they were added. */
  class CloudupModelBuilderContext {
    var tasks: seq<Task>

    constructor ()
      ensures tasks == []
    {
      tasks := [];
    }

    /** `AddTask`: records one more task. */
    method AddTask(task: Task)
      modifies this
      ensures tasks == old(tasks) + [task]
    {
      tasks := tasks + [task];
    }
  }

  /** The table's role assignments are distinct, one per entry. */
  lemma TableRoleAssignmentsCount(b: VMScaleSetModelBuilder, scaleSet: string)
    ensures |TableRoleAssignments(b, scaleSet)| == |RoleKeys|
  {
    TableRoleAssignmentsShape(b, scaleSet);
    assert |RoleKeys| == 2;
  }

  /** The task assigning the role of table entry `k` to `scaleSet`. */
  function TableRoleAssignmentTask(b: VMScaleSetModelBuilder, scaleSet: string, k: RoleKey): Task {
    RoleAssignmentTask(BuildRoleAssignmentTask(b, scaleSet, RoleKeyName(k), RoleDefinitionId(k)))
  }

  /**
    * Adds one role assignment for `scaleSet` per role table entry, taking the
    * entries in whatever order the map yields them: `order` is that order,
    * naming each entry once, and `added` the tasks added, one per entry of
    * `order`.
    */
  method AddRoleAssignments(b: VMScaleSetModelBuilder, scaleSet: string, c: CloudupModelBuilderContext)
    returns (ghost order: seq<RoleKey>, ghost added: seq<Task>)
    modifies c
    ensures c.tasks == old(c.tasks) + added
    ensures forall k :: k in RoleKeys ==> k in order
    ensures forall i :: 0 <= i < |order| ==> order[i] in RoleKeys
    ensures forall i, j :: 0 <= i < j < |order| ==> order[i] != order[j]
    ensures |added| == |order| && forall i :: 0 <= i < |order| ==> added[i] == TableRoleAssignmentTask(b, scaleSet, order[i])
  {
    order, added := [], [];
    var remaining := RoleKeys;
    while remaining != {}
      invariant forall k :: k in RoleKeys ==> k in remaining || k in order
      invariant forall k :: k in remaining ==> k in RoleKeys && k !in order
      invariant forall i :: 0 <= i < |order| ==> order[i] in RoleKeys
      invariant forall i, j :: 0 <= i < j < |order| ==> order[i] != order[j]
      invariant c.tasks == old(c.tasks) + added
      invariant |added| == |order| && forall i :: 0 <= i < |order| ==> added[i] == TableRoleAssignmentTask(b, scaleSet, order[i])
      decreases remaining
    {
      var k :| k in remaining;
      var task := RoleAssignmentTask(BuildRoleAssignmentTask(b, scaleSet, RoleKeyName(k), RoleDefinitionId(k)));
      c.AddTask(task);
      order, added := order + [k], added + [task];
      remaining := remaining - {k};
    }
  }

  /** A list without repetitions whose elements are those of `elements` has one entry per element. */
  lemma {:induction false} DistinctListCount<T>(list: seq<T>, elements: set<T>)
    requires forall i, j :: 0 <= i < j < |list| ==> list[i] != list[j]
    requires forall x :: x in list <==> x in elements
    ensures |list| == |elements|
    decreases |list|
  {
    if list == [] {
      assert elements == {};
    } else {
      var last := list[|list| - 1];
      var front := list[..|list| - 1];
      forall x
        ensures x in front ==> x in elements - {last}
        ensures x in elements - {last} ==> x in front
      {
        if x in front {
          var k :| 0 <= k < |front| && front[k] == x;
          assert list[k] == x;
        }
        if x in elements - {last} {
          var k :| 0 <= k < |list| && list[k] == x;
          assert front[k] == x;
        }
      }
      DistinctListCount(front, elements - {last});
    }
  }

  /** Tasks for every table entry, each entry once, are the table's role assignments, each once. */
  lemma TableOrderCovers(b: VMScaleSetModelBuilder, scaleSet: string, order: seq<RoleKey>, added: seq<Task>)
    requires forall k :: k in RoleKeys ==> k in order
    requires forall i :: 0 <= i < |order| ==> order[i] in RoleKeys
    requires forall i, j :: 0 <= i < j < |order| ==> order[i] != order[j]
    requires |added| == |order| && forall i :: 0 <= i < |order| ==> added[i] == TableRoleAssignmentTask(b, scaleSet, order[i])
    ensures |added| == |TableRoleAssignments(b, scaleSet)|
    ensures forall t :: t in added ==> t.RoleAssignmentTask? && t.assignment in TableRoleAssignments(b, scaleSet)
    ensures forall ra :: ra in TableRoleAssignments(b, scaleSet) ==> RoleAssignmentTask(ra) in added
  {
    TableRoleAssignmentsCount(b, scaleSet);
    DistinctListCount(order, RoleKeys);
    forall t | t in added
      ensures t.RoleAssignmentTask? && t.assignment in TableRoleAssignments(b, scaleSet)
    {
      var i :| 0 <= i < |added| && added[i] == t;
      assert order[i] in RoleKeys;
    }
    forall ra | ra in TableRoleAssignments(b, scaleSet)
      ensures RoleAssignmentTask(ra) in added
    {
      var k :| k in RoleKeys && ra == BuildRoleAssignmentTask(b, scaleSet, RoleKeyName(k), RoleDefinitionId(k));
      var i :| 0 <= i < |order| && order[i] == k;
      assert added[i] == RoleAssignmentTask(ra);
    }
  }

  /** A scale set followed by tasks for exactly the given role assignments, each once, is their block. */
  lemma BlockFromParts(vmss: VMScaleSet, roleAssignments: set<RoleAssignment>, added: seq<Task>)
    requires |added| == |roleAssignments|
    requires forall t :: t in added ==> t.RoleAssignmentTask? && t.assignment in roleAssignments
    requires forall ra :: ra in roleAssignments ==> RoleAssignmentTask(ra) in added
    ensures BlockRealizes([ScaleSetTask(vmss)] + added, GroupTasks(vmss, roleAssignments))
  {
  }

  /**
    * The scale set task of `vmss` followed by one role assignment task per
    * role table entry, when the group needs them, and by none otherwise, is
    * the block of the group's planned tasks.
    */
  lemma GroupBlock(b: VMScaleSetModelBuilder, ig: InstanceGroup, vmss: VMScaleSet, order: seq<RoleKey>, added: seq<Task>)
    requires NeedsRoleAssignments(b, ig) ==>
      (forall k :: k in RoleKeys ==> k in order)
      && (forall i :: 0 <= i < |order| ==> order[i] in RoleKeys)
      && (forall i, j :: 0 <= i < j < |order| ==> order[i] != order[j])
      && |added| == |order|
      && (forall i :: 0 <= i < |order| ==> added[i] == TableRoleAssignmentTask(b, vmss.name, order[i]))
    requires !NeedsRoleAssignments(b, ig) ==> added == []
    ensures BlockRealizes([ScaleSetTask(vmss)] + added, GroupTasks(vmss, RoleAssignmentsFor(b, ig, vmss)))
  {
    if NeedsRoleAssignments(b, ig) {
      TableOrderCovers(b, vmss.name, order, added);
    }
    BlockFromParts(vmss, RoleAssignmentsFor(b, ig, vmss), added);
  }

  /** Concatenation is associative. */
  lemma AppendAssoc(a: seq<Task>, b: seq<Task>, c: seq<Task>)
    ensures a + b + c == a + (b + c)
  {
  }

  /**
    * Adds the scale set of `vmss` and, when its group needs them, its role
    * assignments: `block` is what it adds.
    */
  method AddGroupTasks(b: VMScaleSetModelBuilder, ig: InstanceGroup, vmss: VMScaleSet, c: CloudupModelBuilderContext)
    returns (ghost block: seq<Task>)
    modifies c
    ensures c.tasks == old(c.tasks) + block
    ensures BlockRealizes(block, GroupTasks(vmss, RoleAssignmentsFor(b, ig, vmss)))
  {
    ghost var before := c.tasks;
    c.AddTask(ScaleSetTask(vmss));
    ghost var order: seq<RoleKey> := [];
    ghost var added: seq<Task> := [];
    if NeedsRoleAssignments(b, ig) {
      order, added := AddRoleAssignments(b, vmss.name, c);
    }
    block := [ScaleSetTask(vmss)] + added;
    AppendAssoc(before, [ScaleSetTask(vmss)], added);
    GroupBlock(b, ig, vmss, order, added);
  }

  /** A group whose scale set is built extends the plan by its block. */
  lemma PlanStepOk(b: VMScaleSetModelBuilder, igs: seq<InstanceGroup>, i: nat, emitted: seq<Task>, vmss: VMScaleSet, block: seq<Task>)
    requires i < |igs|
    requires PlanGroups(b, igs[..i]).err.None? && Realizes(emitted, PlanGroups(b, igs[..i]).groups)
    requires ScaleSetFor(b, b.autoscalingGroupName(igs[i]), igs[i]) == Ok(vmss)
    requires BlockRealizes(block, GroupTasks(vmss, RoleAssignmentsFor(b, igs[i], vmss)))
    ensures PlanGroups(b, igs[..i + 1]).err.None? && Realizes(emitted + block, PlanGroups(b, igs[..i + 1]).groups)
  {
    var g := GroupTasks(vmss, RoleAssignmentsFor(b, igs[i], vmss));
    assert GroupOutcome(b, igs[i]) == Ok(g);
    assert igs[..i + 1][..i] == igs[..i];
    assert PlanGroups(b, igs[..i + 1]) == BuildPlan(PlanGroups(b, igs[..i]).groups + [g], None);
    RealizesAppend(emitted, PlanGroups(b, igs[..i]).groups, block, g);
  }

  /** A group whose scale set cannot be built ends the plan of all groups with its error. */
  lemma PlanStepErr(b: VMScaleSetModelBuilder, igs: seq<InstanceGroup>, i: nat, e: Error)
    requires i < |igs|
    requires PlanGroups(b, igs[..i]).err.None?
    requires ScaleSetFor(b, b.autoscalingGroupName(igs[i]), igs[i]) == Err(e)
    ensures PlanGroups(b, igs) == BuildPlan(PlanGroups(b, igs[..i]).groups, Some(e))
  {
    var outcome := ig => GroupOutcome(b, ig);
    assert outcome(igs[i]) == Err(e);
    assert igs[..i + 1][..i] == igs[..i];
    assert PlanOf(outcome, igs[..i + 1]) == BuildPlan(PlanGroups(b, igs[..i]).groups, Some(e));
    PlanOfErrorPersists(outcome, igs[..i + 1], igs[i + 1..]);
    assert igs[..i + 1] + igs[i + 1..] == igs;
  }

  /** The security groups followed by the realized plan is what `Build` emits. */
  lemma EmitsFrom(b: VMScaleSetModelBuilder, before: seq<Task>, after: seq<Task>, emitted: seq<Task>, err: Option<Error>)
    requires after == before + [ControlPlaneSecurityGroupTask(b), NodesSecurityGroupTask(b)] + emitted
    requires Realizes(emitted, PlanGroups(b, b.instanceGroups).groups) && err == PlanGroups(b, b.instanceGroups).err
    ensures |after| >= |before| && after[..|before|] == before
    ensures BuildEmits(b, after[|before|..], err)
  {
  }

  /**
    * `Build`: adds the two security groups, then for each instance group in
    * order its scale set and role assignments, returning the first error at
    * once. Tasks added before an error stay in the context.
    */
  method Build(b: VMScaleSetModelBuilder, c: CloudupModelBuilderContext) returns (err: Option<Error>)
    modifies c
    ensures |c.tasks| >= |old(c.tasks)| && c.tasks[..|old(c.tasks)|] == old(c.tasks)
    ensures BuildEmits(b, c.tasks[|old(c.tasks)|..], err)
  {
    c.AddTask(ControlPlaneSecurityGroupTask(b));
    c.AddTask(NodesSecurityGroupTask(b));
    ghost var prefix := c.tasks;
    ghost var emitted: seq<Task> := [];
    var igs := b.instanceGroups;
    var i := 0;
    while i < |igs|
      invariant 0 <= i <= |igs|
      invariant prefix == old(c.tasks) + [ControlPlaneSecurityGroupTask(b), NodesSecurityGroupTask(b)]
      invariant c.tasks == prefix + emitted
      invariant PlanGroups(b, igs[..i]).err.None? && Realizes(emitted, PlanGroups(b, igs[..i]).groups)
      decreases |igs| - i
    {
      var ig := igs[i];
      var name := b.autoscalingGroupName(ig);
      var vmss := BuildVMScaleSetTask(b, name, ig);
      if vmss.Err? {
        PlanStepErr(b, igs, i, vmss.error);
        EmitsFrom(b, old(c.tasks), c.tasks, emitted, Some(vmss.error));
        return Some(vmss.error);
      }
      ghost var block := AddGroupTasks(b, ig, vmss.value, c);
      PlanStepOk(b, igs, i, emitted, vmss.value, block);
      AppendAssoc(prefix, emitted, block);
      emitted := emitted + block;
      i := i + 1;
    }
    assert igs[..i] == igs;
    EmitsFrom(b, old(c.tasks), c.tasks, emitted, None);
    return None;
  }

  // ---------------------------------------------------------------------------
  // What a build adds, per instance group
  // ---------------------------------------------------------------------------

  /** The scale sets among `tasks`, in the order they were added. */
  function ScaleSetsAdded(tasks: seq<Task>): seq<VMScaleSet>
    decreases |tasks|
  {
    if tasks == [] then []
    else
      var last := tasks[|tasks| - 1];
      ScaleSetsAdded(tasks[..|tasks| - 1]) + (if last.ScaleSetTask? then [last.vmss] else [])
  }

  /** The scale sets of two runs of tasks, one after the other. */
  lemma {:induction false} ScaleSetsAddedAppend(a: seq<Task>, b: seq<Task>)
    ensures ScaleSetsAdded(a + b) == ScaleSetsAdded(a) + ScaleSetsAdded(b)
    decreases |b|
  {
    if b == [] {
      assert a + b == a;
    } else {
      ScaleSetsAddedAppend(a, b[..|b| - 1]);
      assert (a + b)[..|a + b| - 1] == a + b[..|b| - 1];
    }
  }

  /** Tasks none of which is a scale set hold no scale set. */
  lemma {:induction false} NoScaleSetsAdded(tasks: seq<Task>)
    requires forall j :: 0 <= j < |tasks| ==> !tasks[j].ScaleSetTask?
    ensures ScaleSetsAdded(tasks) == []
    decreases |tasks|
  {
    if tasks != [] {
      NoScaleSetsAdded(tasks[..|tasks| - 1]);
    }
  }

  /** A group's block holds exactly one scale set, the group's. */
  lemma BlockScaleSets(block: seq<Task>, g: GroupTasks)
    requires BlockRealizes(block, g)
    ensures ScaleSetsAdded(block) == [g.scaleSet]
  {
    NoScaleSetsAdded(block[1..]);
    ScaleSetsAddedAppend([block[0]], block[1..]);
    assert block == [block[0]] + block[1..];
    assert ScaleSetsAdded([block[0]]) == [g.scaleSet];
  }

  /** The scale set of each of `groups`, in order. */
  function PlannedScaleSets(groups: seq<GroupTasks>): (sets: seq<VMScaleSet>)
    ensures |sets| == |groups|
    ensures forall i :: 0 <= i < |groups| ==> sets[i] == groups[i].scaleSet
  {
    seq(|groups|, i requires 0 <= i < |groups| => groups[i].scaleSet)
  }

  /** Splitting a run of tasks splits its scale sets at the same point. */
  lemma ScaleSetsAddedSplit(tasks: seq<Task>, k: nat)
    requires k <= |tasks|
    ensures ScaleSetsAdded(tasks) == ScaleSetsAdded(tasks[..k]) + ScaleSetsAdded(tasks[k..])
  {
    ScaleSetsAddedAppend(tasks[..k], tasks[k..]);
    assert tasks == tasks[..k] + tasks[k..];
  }

  /** Realized groups contribute their scale sets, one each, in the groups' order. */
  lemma {:induction false} RealizesScaleSets(added: seq<Task>, groups: seq<GroupTasks>)
    requires Realizes(added, groups)
    ensures ScaleSetsAdded(added) == PlannedScaleSets(groups)
    decreases |groups|
  {
    if groups != [] {
      var g := groups[|groups| - 1];
      var k := |added| - (1 + |g.roleAssignments|);
      RealizesScaleSets(added[..k], groups[..|groups| - 1]);
      BlockScaleSets(added[k..], g);
      ScaleSetsAddedSplit(added, k);
      assert PlannedScaleSets(groups) == PlannedScaleSets(groups[..|groups| - 1]) + [g.scaleSet];
    }
  }

  /**
    * Two tasks that are not scale sets followed by realized groups hold the
    * groups' scale sets, in order.
    */
  lemma EmittedScaleSets(added: seq<Task>, groups: seq<GroupTasks>)
    requires 2 <= |added| && !added[0].ScaleSetTask? && !added[1].ScaleSetTask?
    requires Realizes(added[2..], groups)
    ensures ScaleSetsAdded(added) == PlannedScaleSets(groups)
  {
    RealizesScaleSets(added[2..], groups);
    NoScaleSetsAdded(added[..2]);
    ScaleSetsAddedSplit(added, 2);
  }

  /**
    * A build adds exactly one scale set per instance group it gets through, in
    * the groups' order, each the one built for its group. Without an error
    * that is one per instance group of the cluster; with one, the error is
    * that of the first group whose scale set was not added.
    */
  lemma BuildScaleSets(b: VMScaleSetModelBuilder, added: seq<Task>, err: Option<Error>)
    requires BuildEmits(b, added, err)
    ensures var igs := b.instanceGroups; var sets := ScaleSetsAdded(added);
      |sets| <= |igs|
      && (err.None? <==> |sets| == |igs|)
      && (forall i :: 0 <= i < |sets| ==> ScaleSetFor(b, b.autoscalingGroupName(igs[i]), igs[i]) == Ok(sets[i]))
      && (err.Some? ==> ScaleSetFor(b, b.autoscalingGroupName(igs[|sets|]), igs[|sets|]) == Err(err.value))
  {
    var igs := b.instanceGroups;
    var groups := PlanGroups(b, igs).groups;
    EmittedScaleSets(added, groups);
    PlanGroupsShape(b, igs);
    var sets := ScaleSetsAdded(added);
    forall i | 0 <= i < |sets|
      ensures ScaleSetFor(b, b.autoscalingGroupName(igs[i]), igs[i]) == Ok(sets[i])
    {
      assert sets[i] == groups[i].scaleSet;
    }
  }
}
