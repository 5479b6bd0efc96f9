# kops Azure VM Scale Set model builder, in Dafny

This project models the Azure VM Scale Set model builder of kops
(`pkg/model/azuremodel/vmscaleset.go`). For a cluster it adds two
application security groups (control plane and nodes) to the build
context. Then, for each instance group in order, it builds one VM Scale
Set task and adds it. A scale set is built only if all of these hold:

- its zones map to availability zone numbers;
- its role is control plane or node;
- its minimum and maximum sizes agree;
- its root volume is the ephemeral OS-cache type and its image parses;
- the cluster has at most one SSH key;
- it resolves to exactly one subnet, of a known type.

Control-plane scale sets, and every scale set when the cluster uses legacy
gossip, also get two role assignments, "owner" and "blob". The first error
ends the build. Tasks added before it stay in the context.

Layout:

- `wrappers.dfy`: `Option` and `Result` (usable with `:-`), and Go's `int32`/`int64`.
- `go_strings.dfy`: Go's `strings.HasPrefix` and `strings.Split`, with `Join` and the split/join lemmas.
- `kops_types.dfy`: the instance group fields the builder reads. Roles and subnet types are datatypes with a catch-all constructor for any other string.
- `azure_tasks.dfy`: the task descriptors the builder emits.
- `vmscaleset.dfy`: the builder itself.

How the builder is modelled:

- `getCapacity`, `getStorageProfile`, `parseImage` and `buildRoleAssignmentTask` are functions.
- `buildVMScaleSetTask` is a method. Its zone loop is the method `MapAvailabilityZones`. It is proved equal to the specification function `ScaleSetFor`, and lemmas about `ScaleSetFor` state what the source promises.
- `Build` is a module-level method that takes the build context, an object of the class `CloudupModelBuilderContext`, which holds the tasks added so far and whose `AddTask` appends one. `Build` is proved to emit what the ghost predicate `BuildEmits` describes: the two security groups, then one block per planned group. The plan (`PlanGroups`) lists each group's outcome up to the first failure.
- The role table is a Go map, so its iteration order is not fixed. The model takes its entries in an arbitrary order (`:|`), and each group's role assignments are a set.

## Model

| member | source | states |
|---|---|---|
| `AzureModel.GetCapacity` | pkg/model/azuremodel/vmscaleset.go:174-192 | Succeeds exactly when the resolved min and max sizes agree; the capacity is that size; otherwise the error carries both resolved sizes. An unset bound resolves to 2 for nodes and 1 for any other role. |
| `AzureModel.CapacityWithoutBounds` | pkg/model/azuremodel/vmscaleset.go:176-186 | With neither bound set, a node group has capacity 2 and any other group capacity 1. |
| `AzureModel.CapacityOneBoundSet` | pkg/model/azuremodel/vmscaleset.go:178-187 | An explicit bound overrides the default on its own side only, so one explicit bound succeeds exactly when it equals the role default. |
| `AzureModel.ParseImage` | pkg/model/azuremodel/vmscaleset.go:234-251 | The ID form is returned exactly for inputs starting with `/subscriptions/`, and it holds the whole input; every error is the malformed-URN error for the input. |
| `AzureModel.ParseImageAcceptsUrn` | pkg/model/azuremodel/vmscaleset.go:241-244 | An input that is not a resource ID is accepted exactly when it contains three colons (four fields). |
| `AzureModel.ParseImageUrnFields` | pkg/model/azuremodel/vmscaleset.go:241-250 | An accepted URN's publisher, offer, SKU and version hold no colon and join back with `:` to the input. |
| `AzureModel.UrnRoundTrip` | pkg/model/azuremodel/vmscaleset.go:234-251 | Four colon-free fields joined with `:` parse back to the same four fields, unless the publisher itself starts with `/subscriptions/`. |
| `AzureModel.GetStorageProfile` | pkg/model/azuremodel/vmscaleset.go:194-232 | Succeeds exactly when the disk size resolves, the image parses and the root volume type is `EphemeralOnOSCache`. Errors take precedence in that order. On success the image reference is the parsed image, the disk size is the explicit one or else the role default, and the OS disk is Linux, from image, local ephemeral on the cache disk, cached read-only. |
| `AzureModel.GetStorageProfileAsWritten` | pkg/model/azuremodel/vmscaleset.go:194-232 | The source as written; whenever a root volume is present it agrees with the corrected `GetStorageProfile`. |
| `AzureModel.NilRootVolumePanics` | pkg/model/azuremodel/vmscaleset.go:211-231 | With no root volume, a resolvable default size and a valid image, the source dereferences the nil root volume, while the corrected model returns the unsupported-type error for an unset type. |
| `AzureModel.MapZones` | pkg/model/azuremodel/vmscaleset.go:89-96 | A successful mapping has one number per zone. |
| `AzureModel.MapZonesShape` | pkg/model/azuremodel/vmscaleset.go:89-96 | The zones map exactly when every zone does, each to its own number in order; otherwise the error is that of the first zone that fails. |
| `AzureModel.MapZonesErrorPersists` | pkg/model/azuremodel/vmscaleset.go:89-96 | Once a prefix of the zones fails, adding more zones changes neither the failure nor its error. |
| `AzureModel.MapAvailabilityZones` | pkg/model/azuremodel/vmscaleset.go:88-96 | The zone loop returns the mapping `MapZones` specifies, stopping at the first failing zone. |
| `AzureModel.SecurityGroupsFor` | pkg/model/azuremodel/vmscaleset.go:108-115 | Control-plane groups join only the control-plane security group and node groups only the nodes group; any other role is the unexpected-role error. |
| `AzureModel.SSHPublicKeyFor` | pkg/model/azuremodel/vmscaleset.go:130-135 | Succeeds exactly with at most one key; the key is set exactly when there is one, and it is that key; more keys give the too-many-keys error with their count. |
| `AzureModel.ExactlyOneSubnet` | pkg/model/azuremodel/vmscaleset.go:141-149 | Succeeds exactly when one subnet was gathered and returns it; otherwise the error names the group and its configured subnets. |
| `AzureModel.RequirePublicIP` | pkg/model/azuremodel/vmscaleset.go:151-161 | Public and utility subnets give the group's explicit choice, or true when unset; dual-stack and private subnets always give false; any other type is an error. |
| `AzureModel.LoadBalancerFor` | pkg/model/azuremodel/vmscaleset.go:163-167 | A load balancer is attached exactly to control-plane groups of clusters with an API load balancer, and it is the cluster's load balancer. |
| `AzureModel.ScaleSetSucceedsIff` | pkg/model/azuremodel/vmscaleset.go:84-172 | A scale set is built exactly when every zone maps, the role is control plane or node, the capacity and storage profile resolve, there is at most one SSH key, user data is produced, and exactly one subnet of a known type is gathered. |
| `AzureModel.ScaleSetNamed` | pkg/model/azuremodel/vmscaleset.go:97-103 | A built task carries the name it was built under, the group's machine type as its SKU, the group's name as its computer name prefix, and the cluster's resource group and virtual network. |
| `AzureModel.ScaleSetZones` | pkg/model/azuremodel/vmscaleset.go:89-104 | The task's zones are the input zones' numbers, one per zone in order; a zone-mapping error is returned unchanged. |
| `AzureModel.ScaleSetSecurityGroupsAndLoadBalancer` | pkg/model/azuremodel/vmscaleset.go:108-167 | A built task links only its role's security group and has a load balancer exactly for control-plane groups with an API load balancer; with the zones mapped, any other role fails with the unexpected-role error. |
| `AzureModel.ScaleSetKeyAndSubnet` | pkg/model/azuremodel/vmscaleset.go:130-161 | A built task carries the single SSH key or none, came from exactly one gathered subnet, links that subnet, and has the public-IP flag that the subnet's type prescribes. |
| `AzureModel.BuildVMScaleSetTask` | pkg/model/azuremodel/vmscaleset.go:84-172 | The method builds exactly the task, or returns exactly the first error, that `ScaleSetFor` specifies. |
| `AzureModel.BuildRoleAssignmentTask` | pkg/model/azuremodel/vmscaleset.go:253-262 | A role assignment grants the given role definition to the given scale set, within the cluster's resource group and lifecycle. |
| `AzureModel.RoleAssignmentNameEncodesKey` | pkg/model/azuremodel/vmscaleset.go:253-256 | A role assignment is named `<scale set>-<role key>`: the scale-set name, a dash, then the key, which can be read back from the name; two role assignments of one scale set have the same name exactly when they have the same role key. |
| `AzureModel.TableRoleAssignmentsShape` | pkg/model/azuremodel/vmscaleset.go:65-77 | The role table yields exactly two distinct role assignments: `<name>-owner` with the Owner role ID and `<name>-blob` with the Storage Blob Data Contributor role ID. |
| `AzureModel.RoleAssignmentsForShape` | pkg/model/azuremodel/vmscaleset.go:65-77 | A group that is control plane, or any group when the cluster uses legacy gossip, gets those two role assignments; every other group gets none. |
| `AzureModel.AddRoleAssignments` | pkg/model/azuremodel/vmscaleset.go:69-77 | The role table loop adds one task per table entry, each entry exactly once, in an unspecified order, and changes nothing else in the context. |
| `AzureModel.TableOrderCovers` | pkg/model/azuremodel/vmscaleset.go:69-77 | Whatever the iteration order, the tasks added are the table's role assignments, each exactly once. |
| `AzureModel.ControlPlaneSecurityGroupTask` | pkg/model/azuremodel/vmscaleset.go:44-49 | The first task `Build` adds is the control-plane application security group, in the cluster's resource group and lifecycle, with no tags. |
| `AzureModel.NodesSecurityGroupTask` | pkg/model/azuremodel/vmscaleset.go:50-55 | The second task `Build` adds is the nodes application security group, in the cluster's resource group and lifecycle, with no tags. |
| `AzureModel.ScaleSetJoinsAddedSecurityGroup` | pkg/model/azuremodel/vmscaleset.go:108-115 | Every built scale set joins exactly one application security group, one of the two `Build` adds first: the control-plane group for a control-plane group, the nodes group for a node group. |
| `AzureModel.CloudupModelBuilderContext.AddTask` | pkg/model/azuremodel/vmscaleset.go:44-55 | Adding a task appends it to the tasks added so far. |
| `AzureModel.AddGroupTasks` | pkg/model/azuremodel/vmscaleset.go:62-78 | Adds the group's scale set, then its role assignments when needed, and these tasks form the group's block. |
| `AzureModel.GroupOutcome` | pkg/model/azuremodel/vmscaleset.go:58-78 | A group that builds yields a scale set named by the group's autoscaling group name, with the `<name>-owner` and `<name>-blob` role assignments when the group is control plane or the cluster uses legacy gossip, and with none otherwise. |
| `AzureModel.PlanOfShape` | pkg/model/azuremodel/vmscaleset.go:57-79 | A plan holds the outcomes of the groups up to the first failure, in order; it ends without error exactly when all groups succeeded, and otherwise with the first failing group's error. |
| `AzureModel.PlanGroupsShape` | pkg/model/azuremodel/vmscaleset.go:57-79 | The build's plan has one entry per group up to the first failing one, each that group's built scale set with its role assignments; it ends with an error exactly when some group fails, and that error is the first failing group's. |
| `AzureModel.PlanOfErrorPersists` | pkg/model/azuremodel/vmscaleset.go:59-63 | After the first error, later groups add nothing and do not change the error. |
| `AzureModel.BuildScaleSets` | pkg/model/azuremodel/vmscaleset.go:57-65 | A build adds one scale set per instance group it gets through, in group order, each the one built for its group. It adds one per instance group exactly when it returns no error; otherwise the error is that of the first group without a scale set. |
| `AzureModel.Build` | pkg/model/azuremodel/vmscaleset.go:43-82 | Keeps the tasks already in the context, then adds the control-plane and nodes security groups, then each planned group's block in group order. It returns the plan's error, so tasks added before a failure remain. |

## Left out

- The Azure SDK structures and the kops task types are reduced to datatypes with the fields the builder sets. Other tasks are referenced by name (resource group, virtual network, security groups, load balancer, scale set), not by pointer.
- Naming and link helpers (`AutoscalingGroupName`, `NameFor*`, `LinkTo*`) and the lifecycle are opaque values or function values of the builder. Their definitions are not part of this model.
- Collaborators are function values of the builder. These are the zone-number mapper, the default volume size, `ResourceNodeUp`, `GatherSubnets`, the cloud tags and the subnet link. Any tasks `ResourceNodeUp` itself adds to the context are not modelled.
- Go strings are byte sequences; the model's strings are sequences of characters. The builder only looks for `:` and the `/subscriptions/` prefix, which are ASCII, so splitting and prefix tests agree on either view.
- Role and subnet type strings are parsed into datatypes; a catch-all constructor never holds the string of a named role or type, and the model does not enforce this on its inputs.
- Error messages are not modelled. Each error constructor records which check failed and the values it reports.
- The task context is a sequence of added tasks. It does not detect duplicate task names.
- The role table's iteration order is not modelled. Role assignments are specified as a set, and the tasks added are each table entry once, in any order.
- Capacity and volume sizes are Go `int32`; widening the capacity to `int64` is exact, so no overflow is modelled.

## Findings

| source | as written | input that shows it | evidently intended | confidence | as-written member | corrected member |
|---|---|---|---|---|---|---|
| pkg/model/azuremodel/vmscaleset.go:231 | The error for an unsupported root volume type reads `spec.RootVolume.Type` even when `spec.RootVolume` is nil, which is a nil-pointer panic in Go. | An instance group with no root volume, a role with a default volume size and a valid image. | Return the unsupported-root-volume-type error, with the type unset. | not executed | `AzureModel.GetStorageProfileAsWritten` (exhibited by `AzureModel.NilRootVolumePanics`) | `AzureModel.GetStorageProfile` |
