/**
  * The Azure task descriptors the builder emits, with the fields of the Azure
  * SDK structures it fills in. References to other tasks (resource group,
  * virtual network, subnet, security groups, load balancer, scale set) are
  * held by the referenced task's name, which is how the task engine resolves
  * them.
  */
module AzureTasks {
  import opened Wrappers
  import opened BoundedInts

  /** `fi.Lifecycle`, passed through unchanged. */
  type Lifecycle = string

  /** An opaque resource handle, such as the user data produced by the bootstrap script builder. */
  datatype Resource = Resource(handle: string)

  /** `compute.ImageReference`: either a resource ID or a marketplace URN's four parts. */
  datatype ImageReference =
    | ById(id: string)
    | ByUrn(publisher: string, offer: string, sku: string, version: string)

  datatype OperatingSystemType = Linux | Windows

  datatype DiskCreateOption = FromImage | Empty | Attach

  datatype DiffDiskOption = Local

  datatype DiffDiskPlacement = CacheDisk | ResourceDisk | NvmeDisk

  datatype CachingType = NoCaching | ReadOnly | ReadWrite

  /** `compute.DiffDiskSettings`. */
  datatype DiffDiskSettings = DiffDiskSettings(option: DiffDiskOption, placement: DiffDiskPlacement)

  /** `compute.VirtualMachineScaleSetOSDisk`. */
  datatype OSDisk = OSDisk(
    osType: OperatingSystemType,
    createOption: DiskCreateOption,
    diskSizeGB: int32,
    diffDiskSettings: DiffDiskSettings,
    caching: CachingType)

  /** `compute.VirtualMachineScaleSetStorageProfile`. */
  datatype StorageProfile = StorageProfile(imageReference: ImageReference, osDisk: OSDisk)

  /** `azuretasks.ApplicationSecurityGroup`. */
  datatype ApplicationSecurityGroup = ApplicationSecurityGroup(
    name: string,
    lifecycle: Lifecycle,
    resourceGroup: string,
    tags: map<string, string>)

  /** `azuretasks.VMScaleSet`; a nil pointer field that the builder may leave unset is an `Option`. */
  datatype VMScaleSet = VMScaleSet(
    name: string,
    lifecycle: Lifecycle,
    resourceGroup: string,
    virtualNetwork: string,
    skuName: string,
    computerNamePrefix: string,
    adminUser: string,
    zones: seq<string>,
    applicationSecurityGroups: seq<string>,
    capacity: int64,
    storageProfile: StorageProfile,
    sshPublicKey: Option<string>,
    userData: Resource,
    subnet: string,
    requirePublicIP: bool,
    loadBalancer: Option<string>,
    tags: map<string, string>)

  /** `azuretasks.RoleAssignment`; `scaleSet` names the scale set whose identity gets the role. */
  datatype RoleAssignment = RoleAssignment(
    name: string,
    lifecycle: Lifecycle,
    resourceGroup: string,
    scaleSet: string,
    roleDefId: string)

  /** A task added to the build context. */
  datatype Task =
    | SecurityGroupTask(asg: ApplicationSecurityGroup)
    | ScaleSetTask(vmss: VMScaleSet)
    | RoleAssignmentTask(assignment: RoleAssignment)
}
