/**
  * The part of a kops InstanceGroup and of a cluster subnet that the Azure
  * VM Scale Set builder reads. Go pointer fields are `Option`s; the string
  * enumerations of kops become datatypes with one constructor per value kops
  * names and one for any other string.
  */
module Kops {
  import opened Wrappers
  import opened BoundedInts

  /**
    * `kops.InstanceGroupRole`. `UnknownRole(s)` stands for any role string
    * other than the four named ones; it never holds the string of a named
    * role (a group whose role is the string `Node` is `Node`, not
    * `UnknownRole("Node")`).
    */
  datatype InstanceGroupRole =
    | ControlPlane
    | Node
    | Bastion
    | APIServer
    | UnknownRole(role: string)

  /**
    * `kops.SubnetType`. `UnknownSubnetType(s)` stands for any subnet type
    * string other than the four named ones, and never holds one of theirs.
    */
  datatype SubnetType =
    | Public
    | Private
    | Utility
    | DualStack
    | UnknownSubnetType(subnetType: string)

  /** `kops.InstanceRootVolumeSpec`: the root volume's optional size (GiB) and type. */
  datatype InstanceRootVolumeSpec = InstanceRootVolumeSpec(size: Option<int32>, volumeType: Option<string>)

  /** The fields of `kops.InstanceGroupSpec` the builder reads. */
  datatype InstanceGroupSpec = InstanceGroupSpec(
    role: InstanceGroupRole,
    image: string,
    minSize: Option<int32>,
    maxSize: Option<int32>,
    machineType: string,
    rootVolume: Option<InstanceRootVolumeSpec>,
    subnets: seq<string>,
    zones: seq<string>,
    associatePublicIP: Option<bool>)

  /** `kops.InstanceGroup`: its name and its specification. */
  datatype InstanceGroup = InstanceGroup(name: string, spec: InstanceGroupSpec)

  /** `kops.ClusterSubnetSpec` as returned by subnet gathering: its name and tier. */
  datatype ClusterSubnetSpec = ClusterSubnetSpec(name: string, subnetType: SubnetType)
}
