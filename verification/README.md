# kubenetlab operator: a verified model

kubenetlab runs network labs on Kubernetes. A `Lab` lists nodes (virtual routers, VMs, pods) and links. An admission webhook
fills in defaults; a controller then creates one `LAN` object per link, one or two bridge definitions per distributed router,
and the virtual machines. This project models the two parts that hold the state and the arithmetic, and proves what they keep.

**The cluster.** `Cluster` is a state machine: a step is one API call of the controller with its outcome (done, failed, or
lost: effective but reported as an error), or one action of somebody else (users creating and deleting labs, the garbage
collector, other controllers editing their own finalizers), which may come between any two calls. `ClusterInvariant` and
`ClusterSteps` prove an invariant of every run; `History`, `Collisions`, `Noted`, `Teardown`, `Agreement`, `Progress` and `Race`
draw the conclusions.
`Server` and `Reconciler` are the imperative controller: `Reconcile`, `EnsureLinks`, the allocators, get-or-create, the network
part of `SRVM.Ensure` and `deleteExternalResources`, each proved to follow the state machine call by call. What others do before
each call, and how each call ends, is a script the controller does not see; the server's ghost history takes up a call only with
the outcome the script has for it. So a method that skipped a write, made two in the wrong order, went on after a failure or
reported one that did not happen could not record a run that leads to the stored state. `CallSteps` holds the steps, and `Effects`
says what each operation comes to when no call fails and nobody interferes.

**Admission.** `Merge` and `SystemTrees` treat the nil-pointer merge; `Mac`, `Sysinfo`, `Chassis` and `DefaultPort` the derived
values; `LabSpec` says what becomes of a lab as functions, and `NodePasses`, `Defaulting` and `Admission` prove that the
in-place passes of `Default` compute these functions whatever orders the maps yield, with card objects shared through the
configuration. `Defaulted` says what that leaves in each field, and when it succeeds; `DefaultCards` compares the values filled in
with the default chassis. `Settling` proves idempotence; `Validation` and
`Updates` treat validation and the immutability check; `Sharing` proves what sharing cards keeps, `Isolation` exactly when it
breaks.

**Wiring.** `Spokes`, `Wiring`, `Machines`, `Placement` and `EndToEnd` follow each connector from the admitted lab through the maps
of `EnsureLinks` to the interfaces of the stored virtual machines: the loops give it to exactly one card, and it is in exactly one
machine if and only if that card's machine name is its own. `Bridges` follows each fabric network to the bridge that stands for it.

`Text`, `Names` and `Allocator` hold the string operations, the derived names and the bit-set allocation; `Wrappers` an option
type.

## Assumptions

- One reconcile runs at a time, and reads see all earlier writes, as the comments at `api/v1beta1/link.go:122` and
  `api/v1beta1/link.go:163` ask. VNIs found in the cluster are not negative, and nobody else adds or removes the lab finalizer.
- A lab's spec does not change while it exists (the webhook forbids it).
- An update is refused when the object changed since it was read, and a create when the name is taken or the object was read
  from the server. An object marked for deletion goes away with its last finalizer.
- An initial cluster may hold LANs and bridges of others, with distinct VNIs and indexes and without the lab finalizer. After that
  nobody but the controller creates LANs or bridges; others may mark, edit or delete LANs and delete bridges.

## What turned out false

- "No LAN is created once deletion has begun" holds once no reconcile from before the mark is still at its links
  (`History.NoLanAfterDeletion`); until then it fails (`Progress.DeletionRaceReachable`), exactly under the condition of
  `Race.MarkedLabGetsLanIff`.
- `deleteExternalResources` does not check ownership. When LAN names of two labs coincide, deleting one takes the finalizer off
  the other's LAN (`Teardown.TeardownTouchesForeignIff`, `Teardown.CollidingLabLosesLan`).
- A comment there calls a LAN that is not found "already gone", but the code goes on to update it, which fails: the lab can be
  deleted only while all its LANs exist (`Teardown.DeletionCompletesIff`). A lab deleted right after it was created is an example
  (`Teardown.EarlyDeletionBlocks`).
- A connector need not reach any machine: machines are looked up by a lower-cased name, so one of two cards whose names coincide
  gets none. `EndToEnd.ConnectorPlacedIff` has the exact condition, and `EndToEnd.AddedNodeCollides` an ordinary input, the node
  "vsim-1-A", which shares its fabric with another node as well (`Names.SameFabricName`).
- Labs are not isolated: a shared card keeps the sysinfo of the lab defaulted first (`Isolation.TwoLabsOneConfig`). A lab sees its
  own model in a card exactly under the condition of `Isolation.IsolatedIff`.
- Idempotence is not enough for updates when the configuration changes: a configuration that comes to set a field a stored node
  lacks makes every update of that lab fail, also the one that drops the finalizer (`Updates.AdmitUpdate`).
- The gateway of a MAG-c, card "2" of its default chassis, gets 32Gi and 8 CPUs there, but 8Gi and 4 when its resources are filled
  in, as for a load balancer (`DefaultCards.DemandAgreesIff`, `DefaultCards.GatewayGetsLess`).
- The line cards of a MAG-c refer to the data fabric even when the chassis model counts as integrated, when it is not made
  (`Sysinfo.GeneratedSysinfoAgrees`, `Sysinfo.IntegratedMagcMisses`).
- A default port need not be a slot of the chassis: slot keys such as "01" are read as numbers and printed canonically
  (`DefaultPort.PaddedSlotIsMissed`); `DefaultPort.ChoiceIsSlotIff` and `DefaultPort.ChoiceIsLeastSlotIff` say exactly when it is.

## Model

| member | source | states |
|---|---|---|
| Allocator.AllocateExact | api/v1beta1/link.go:123-191 | An allocation returns exactly the n least free numbers in ascending order, none in use, none 0, none above 2^24-1; it fails if and only if fewer than n numbers are free below the limit. |
| Allocator.FreeMeans | api/v1beta1/link.go:123-191 | Free are the numbers from 1 to 2^24-2 not in use; 2^24-1 is reached only when something beyond it is in use. |
| Allocator.BitSet.constructor | api/v1beta1/link.go:125-126 | A new bit set has the given length and nothing marked. |
| Allocator.BitSet.Set | api/v1beta1/link.go:148 | Marking adds one number and lengthens the set when the number lies beyond it. |
| Allocator.BitSet.NextClear | api/v1beta1/link.go:146-149 | The least clear index from a given one on, below the length; or there is none. |
| Allocator.TakeClear | api/v1beta1/link.go:142-160 | The common loop of both allocators computes the reference allocation of the marked numbers. |
| Allocator.ConversionIsLossless | api/v1beta1/link.go:187 | The conversion of an allocated VNI to int32 changes no number. |
| Reconciler.MarkVnis | api/v1beta1/link.go:166-175 | Listing the LANs marks exactly their VNIs and 0, in a set long enough to cover them. |
| Reconciler.MarkIndexes | api/v1beta1/link.go:125-144 | Listing the bridges marks exactly their index labels and 0; it fails if and only if some label is no natural number. |
| Reconciler.GetAvailableVNIs | api/v1beta1/link.go:164-191 | Fails when the list call fails; otherwise returns the allocation against the VNIs stored when the list was read. |
| Reconciler.GetAvailableBrIndex | api/v1beta1/link.go:123-161 | The same for bridge indexes, failing also at a label that is no natural number. |
| Names.SpokeNameInjective | api/v1beta1/link.go:198-200 | A spoke name determines the VNI and the connector index. |
| Names.LanNameInjectiveInLab | api/v1beta1/link.go:112-114 | Within one lab a LAN name determines the link. |
| Names.LanNameCollision | api/v1beta1/link.go:112-114 | Labs with names of different length have links of the same LAN name exactly when one name continues the other by "-middle" and the shorter lab's link name starts with "middle-". |
| Names.CollidingNames | api/v1beta1/link.go:112-114 | For instance link "b-c" of lab "a" and link "c" of lab "a-b". |
| Names.SameFabricName | api/v1beta1/common.go:377-383 | Two routers of a lab share a fabric if and only if their names agree in lower case; data fabrics are never shared. |
| Names.CpmNameParses | api/v1beta1/srvm_common.go:67-87 | The name printed for a control card parses back to the same type and id, for every id an int holds. |
| Names.CpmNameIsFixed | internal/webhook/v1beta1/lab_webhook.go:88-98 | The control card of a control card's node is that node. |
| Names.ControlCardOf | api/v1beta1/srvm_common.go:67-87 | The control card of "vsim-id-card" and "magc-id-card" is the node with card "a". |
| Names.OthersHaveNone | api/v1beta1/srvm_common.go:67-87 | Nodes of other kinds have none. |
| Names.PlainRouterHasNone | api/v1beta1/srvm_common.go:77-81 | Neither has a router whose name has no card. |
| Names.TypeIsBeforeDash | api/v1beta1/system.go:54-59 | The type a name tells is what stands before its first dash, and unknown without one. |
| Names.NamesInFull | api/v1beta1/link.go:112-114 | Names of a LAN, a spoke and a data fabric, written out. |
| Names.FabricInParts | api/v1beta1/common.go:377-383 | A fabric's name is the lower-cased lab, the lower-cased router and "fb", joined by dashes. |
| Names.CpmSlots | api/v1beta1/common.go:372-375 | The CPM slots are "A", "a", "B" and "b". |
| Names.IntegratedModels | api/v1beta1/common.go:478-491 | Models that count as integrated: SR-1, SR-1s, VSR-I, SR-1se, and all that begin with SR-1- or SR-1x-. |
| Names.DistributedModels | api/v1beta1/common.go:478-491 | Models that do not: SR-7, SR-12, VSR, SR-1x. |
| Text.GetSortedKeySlice | api/v1beta1/common.go:560-567 | Collecting and sorting the keys gives the ascending sequence of all of them, whatever order the map yields. |
| ClusterSteps.NextKeeps | internal/controller/lab_controller.go:68-131 | Every API call of the controller, with any outcome, and every action of others in between keeps the cluster invariant. |
| ClusterSteps.RunKeeps | internal/controller/lab_controller.go:68-131 | The invariant holds after any sequence of lab creations, reconciles stopped at any call, retries, edits and deletions. |
| ClusterSteps.InitInv | internal/controller/lab_controller.go:68-74 | A cluster without labs, with LANs and bridges of others, satisfies it. |
| ClusterSteps.LanCreatedInv | api/v1beta1/link.go:228-265 | Creating the missing LAN of a link keeps all of it: unique VNIs, spokes derived from the VNI, a backed finalizer. |
| ClusterSteps.NadCreatedInv | api/v1beta1/srvm_ensure.go:53-72 | Creating a bridge labelled with an index planned earlier keeps all indexes distinct. |
| ClusterSteps.FinalizerDropped | internal/controller/lab_controller.go:100-107 | Dropping the lab's finalizer is a permitted change, since no LAN of the lab holds its own any more. |
| ClusterInvariant.OneOwner | api/v1beta1/k8s.go:64-78 | A LAN belongs to at most one lab present. |
| History.NumbersAreUnique | api/v1beta1/link.go:217-250 | In every reachable state no two LANs share a VNI and no two bridges share an index, a retried MAG-c with a new index list included. |
| History.BridgesAreNumbered | api/v1beta1/common.go:70-80 | In every reachable state each bridge the operator has made carries an index from 1 to 2^24-1 as its label, which no other bridge has. |
| History.SpokesAreUnique | api/v1beta1/link.go:198-200 | In every reachable state different LANs the operator has made share no spoke name, those included whose lab is gone. |
| History.LanNeverChanges | api/v1beta1/k8s.go:29-57 | Key, owners, VNI and spoke list of a LAN never change while it exists. |
| History.RunContinues | api/v1beta1/k8s.go:29-57 | Over any run, what identifies a LAN or a lab stays, and no UID is used again. |
| History.LabOutlivesItsLans | internal/controller/lab_controller.go:81-110 | In every reachable state a LAN with the lab finalizer is the LAN of a link of a lab that exists and carries the finalizer too. |
| History.NoLanAfterDeletion | internal/controller/lab_controller.go:81-113 | Once a lab is being deleted, and no reconcile that began before is still at its links, no run creates a LAN for it. |
| History.LanCreatedIff | api/v1beta1/k8s.go:29-45 | A controller step creates a LAN for a lab, deleted or not, if and only if its reconcile is at the create call for a missing LAN and the call is not refused: the deletion mark is not looked at again. |
| History.DeletionRace | api/v1beta1/k8s.go:29-45 | A lab marked between the look-up and the create still gets a LAN, so the promise without the condition is false. |
| Progress.DeletionRaceReachable | api/v1beta1/k8s.go:29-45 | From every initial cluster with room for a lab there is a run in which that lab, already marked for deletion, gets a LAN. |
| Race.MarkedLabGetsLanIff | api/v1beta1/link.go:217-268 | Exactly when a marked lab can still get a LAN in some run: a reconcile from before the mark is at its links, and from the current link on some link has no LAN or one nothing of ours holds, the links before it having LANs of the lab; before the VNIs are listed, enough of them must be able to be free besides. |
| History.EnsuringOnlyAdds | api/v1beta1/k8s.go:23-57 | While ensuring, no step changes or removes any lab, LAN or bridge; what it adds is controlled by the lab alone. |
| History.LinkPassedIsOwned | api/v1beta1/k8s.go:64-78 | EnsureLinks passes a link only when its LAN exists, is owned by this lab's UID, and has the VNI and spokes noted. |
| Collisions.LanPersists | internal/controller/lab_controller.go:190-212 | Without name collisions a LAN of a lab that is not being deleted stays, with VNI, spokes and finalizer. |
| Collisions.InitGuarded | internal/controller/lab_controller.go:68-74 | The further invariants the rerun results start from hold in an initial cluster. |
| Collisions.RunGuarded | internal/controller/lab_controller.go:190-212 | Without name collisions every LAN of a lab that is not being deleted carries the finalizer, in every state of every run. |
| Collisions.RunPresent | api/v1beta1/link.go:219-268 | At every point of EnsureLinks the LANs of the links passed exist. |
| Collisions.RerunFindsSameVnis | api/v1beta1/link.go:217-268 | A later successful EnsureLinks notes the same VNI for every link although it draws a fresh list. |
| Collisions.RerunCreatesNothing | api/v1beta1/link.go:217-268 | Every LAN the lab has after later reconciles was there, unchanged, after the first success. |
| Noted.RunNoted | api/v1beta1/link.go:217-268 | In every state of every run the VNIs noted for the links passed differ from each other and from those not handed out yet, and a LAN that has one of them stands under that link's name: no assumption on names, deletion or interference. |
| Agreement.MapsLeadBack | api/v1beta1/link.go:251-263 | Once all links are passed every spoke leads through the maps back to its own connector and link, in whatever history. |
| Agreement.MapsAgreeWithStoredSpokes | api/v1beta1/link.go:251-263 | Without name collisions, while the lab is not being deleted: connector i's spoke is entry i of the stored spoke list, and the maps lead from that entry back to the connector and link. |
| Agreement.RerunRebuildsMaps | api/v1beta1/link.go:206-268 | A later success rebuilds identical SpokeMap, SpokeConnectorMap and SpokeLinkMap. |
| Teardown.DeletionCompletesIff | internal/controller/lab_controller.go:199-208 | A lab marked for deletion can still lose its finalizer if and only if every one of its links has its LAN. |
| Teardown.BlockedForEver | internal/controller/lab_controller.go:199-208 | While a LAN is missing no run releases the lab: the update of the object not found is refused each time. |
| Teardown.TeardownCompletes | internal/controller/lab_controller.go:190-212 | With all LANs there the calls of a tear-down that all succeed release the lab, for every order of the links. |
| Teardown.UndisturbedTeardown | internal/controller/lab_controller.go:81-110 | So one reconcile in which every call succeeds and nobody else acts releases a marked lab that has all its LANs, for every order of its links. |
| Teardown.EarlyDeletionBlocks | internal/controller/lab_controller.go:199-208 | The state is reached: from every initial cluster a lab that is created, picked up and marked before its links are made, and one of whose LAN names is not taken, is never released in a run without name collisions. |
| Teardown.TeardownTouchesForeignIff | internal/controller/lab_controller.go:196-208 | Tearing down a link changes a LAN of somebody else if and only if the link's LAN name leads to a LAN that carries the finalizer and is not owned by this lab. |
| Teardown.CollidingLabLosesLan | internal/controller/lab_controller.go:196-208 | With colliding names, creating and deleting one lab lets the LAN of another, live lab be removed. |
| Progress.EnsureSucceedsIff | api/v1beta1/link.go:205-273 | When no call fails and nobody interferes, EnsureLinks succeeds if and only if enough VNIs are free and no LAN under the name of a link belongs to somebody else. |
| Progress.EnsureCompletes | api/v1beta1/link.go:205-273 | The run that succeeds, call by call, whether LANs are found or created. |
| Spokes.SpokesAreNodeSpokes | api/v1beta1/link.go:251-263 | For every node and link the spoke list is exactly the names of the node's connectors on the link, in order. |
| Spokes.SpokeLeadsBack | api/v1beta1/link.go:251-263 | With distinct VNIs every spoke name leads back to its own connector and link. |
| Spokes.IndexLink | api/v1beta1/parsed_lab.go:37-43 | One link adds itself to each node's list once per connector of the node. |
| Spokes.ParseLab | api/v1beta1/parsed_lab.go:32-49 | In the node-to-links index a link stands in a node's list as often as the node has connectors on it, in whatever order the map is walked. |
| Spokes.IndexesAgree | api/v1beta1/parsed_lab.go:36-44 | The two independently built indexes agree: multiplicity in ConnectorMap equals the number of spokes in SpokeMap. |
| Server.ApiServer.Record | internal/controller/lab_controller.go:68-131 | A call enters the history only with the outcome it had, after the actions of others that came before it, and the recorded run stays the one that leads to what is stored. |
| Server.ApiServer.IsReached | internal/controller/lab_controller.go:68-131 | The stored state is the one the state machine reaches by the recorded events. |
| Server.ApiServer.UpdateLab | internal/controller/lab_controller.go:87-107 | An update is accepted only if the lab is as it was read; it may take effect although the caller sees an error; when no call fails and nobody interferes it is decided by what was stored before. |
| Server.ApiServer.UpdateLan | internal/controller/lab_controller.go:206-208 | An update of a LAN that was not found is refused. |
| Server.ApiServer.CreateLan | api/v1beta1/k8s.go:40-45 | A create is refused when the name is taken or the object was read from the server. |
| Server.ApiServer.CreateNad | api/v1beta1/k8s.go:40-45 | The same for bridges. |
| Reconciler.IsOwnedbyLab | api/v1beta1/k8s.go:64-78 | True if and only if some owner reference has the lab's UID. |
| Reconciler.CreateLanIfNotExists | api/v1beta1/k8s.go:23-61 | Get-or-create of a LAN follows the state machine call by call: it succeeds only with the LAN created or found owned by the lab. When no call fails and nobody interferes, what is found stays and must be the lab's, and what is missing is created. |
| Reconciler.CreateNadIfNotExists | api/v1beta1/k8s.go:23-61 | The same for a bridge; on success it stands and is the lab's, and one that was not there before carries the given index as its label. |
| Reconciler.AddSpokes | api/v1beta1/link.go:251-263 | The inner loop appends one spoke per connector to the LAN in memory and notes it in the three maps. |
| Reconciler.EnsureLink | api/v1beta1/link.go:219-268 | One turn of EnsureLinks: on success the machine has passed the link with the VNI of the LAN, new or found. When no call fails and nobody interferes it succeeds if and only if no LAN of somebody else has the name, and then the LAN stands and nothing else has changed. |
| Reconciler.EnsureLinks | api/v1beta1/link.go:205-273 | On success the machine has passed all links and the maps are those of the VNIs noted. When no call fails and nobody interferes it succeeds if and only if enough VNIs are free and no LAN under the name of a link belongs to somebody else; then every link's LAN stands. |
| Reconciler.EnsureBridges | api/v1beta1/srvm_ensure.go:44-72 | On success a distributed router's fabric stands and is the lab's, and a MAG-c's data fabric too, unless somebody deleted one meanwhile. When no call fails and nobody interferes it succeeds if and only if no index label is unreadable, enough indexes are free and no name is taken by somebody else; a new fabric has the least free index. |
| Bridges.BridgePassedIsOwned | api/v1beta1/k8s.go:29-57 | A step that passes a planned bridge leaves it stored and owned by the lab's UID, found or created. |
| Bridges.BridgeStaysLong | api/v1beta1/srvm_ensure.go:53-72 | Over any run a bridge stays, with its owner, until it is deleted. |
| Bridges.PlanStands | api/v1beta1/srvm_ensure.go:44-72 | When the controller comes to the next node, every bridge planned for this one stands and is the lab's, whoever interfered, unless it was deleted. |
| Bridges.PlannedStands | api/v1beta1/srvm_ensure.go:44-72 | The same by name, from the state in which the controller picks the node. |
| Reconciler.EnsureNodes | internal/controller/lab_controller.go:120-130 | The node loop ends with every node passed, at a call that failed or was refused, or at a node whose machine or pod cannot be had, in whatever order; the bridges of all nodes passed stand, unless somebody deleted one. When no call fails and nobody interferes it gives up only at a node whose bridges are blocked. |
| Reconciler.EnsureLab | internal/controller/lab_controller.go:113-130 | A reconcile that ensures a lab stops of its own accord only when every node has been passed, or one has been tried whose machine or pod cannot be had. With everything available, no failed call and nobody interfering, the links have their LANs and the routers their bridges, unless a router's are blocked. |
| Reconciler.DeleteExternalResources | internal/controller/lab_controller.go:190-212 | Success means that every link's LAN was found and written back without the finalizer, in whatever order. When no call fails and nobody interferes it succeeds if and only if every link has a LAN under its name, and takes the lab finalizer and nothing else off those LANs and no others. |
| Reconciler.WriteFinalizers | internal/controller/lab_controller.go:86-91 | A successful update leaves the lab, if still stored, with exactly the finalizers written. |
| Reconciler.Reconcile | internal/controller/lab_controller.go:68-131 | Every reconcile is one run of the state machine, begun at the lab read and carried to its end. When no call fails and nobody interferes: an absent or released lab is left alone; a marked lab is torn down and released, with an error if and only if a LAN is missing; another lab that can be ensured is. |
| Reconciler.ServerIsSafe | internal/controller/lab_controller.go:68-131 | After any history of reconciles from an initial state the server satisfies the cluster invariant. |
| Reconciler.ParsedLab.constructor | api/v1beta1/parsed_lab.go:32-49 | A parsed lab starts with empty spoke maps and the node-to-links index of its links. |
| Merge.FillNilPointersValue | api/v1beta1/common.go:172-204 | The recursive field loop computes the reference merge, going into nil struct pointers after allocating them. |
| Merge.FillAt | api/v1beta1/common.go:172-204 | Path by path: what the destination sets stays; what it leaves unset is what the source has. |
| Merge.FillAssociative | api/v1beta1/common.go:172-204 | Merging is associative for every schema, nil pointers to structs included. |
| Merge.RefillUnchangedIff | api/v1beta1/common.go:181-201 | Refilling changes nothing if and only if everything the second source sets, at any depth, was set. |
| Merge.Absorbed | api/v1beta1/common.go:181-201 | After filling from b, filling from b again or from anything that sets no more than b changes nothing. |
| Merge.TwoLevels | internal/webhook/v1beta1/knlconfig_webhook.go:61-75 | Filling a node from a configuration filled from the application defaults equals filling it from the raw configuration and then from the application defaults. |
| SystemTrees.FillSystemIsFill | api/v1beta1/knlconfig_types.go:135-159 | The merge used for lab nodes is the generic one on their trees, so all merge laws hold of it. |
| Mac.DeriveMacAdds | api/v1beta1/common.go:238-245 | DeriveMac adds the offset modulo 2^48 on big-endian bytes. |
| Mac.DeriveMacSame | api/v1beta1/common.go:238-245 | Two offsets give the same address if and only if they agree modulo 2^48. |
| Mac.DeriveMacKeepsPrefix | api/v1beta1/common.go:235-245 | For an offset below 2^48 the top three octets of either base are kept if and only if it is below 2^24. |
| Mac.PrintInjective | internal/webhook/v1beta1/lab_webhook.go:84 | Printed addresses of equal length are equal only for equal bytes. |
| Mac.DerivedDiffer | internal/webhook/v1beta1/lab_webhook.go:83-84 | Addresses as stored differ for different offsets below 2^48. |
| Mac.RangesApart | api/v1beta1/common.go:235-249 | Connector and chassis addresses never meet, for up to 2^43 of each. |
| Mac.PrintSix | internal/webhook/v1beta1/lab_webhook.go:83-84 | An address is stored as six pairs of hexadecimal digits joined by colons, the first octet first. |
| Mac.HexInFull | internal/webhook/v1beta1/lab_webhook.go:83-84 | An octet is printed as two lower-case hexadecimal digits, the high one first. |
| Mac.FirstAddresses | api/v1beta1/common.go:235-249 | The first connector address is 12:20:22:00:00:01, the first chassis address 02:cc:00:00:00:00. |
| NodePasses.FilledMacsDiffer | internal/webhook/v1beta1/lab_webhook.go:75-86 | Offsets as the link loop hands them out give different addresses, for fewer than 2^48 connectors. |
| Settling.DefaultedMacsDiffer | internal/webhook/v1beta1/lab_webhook.go:75-86 | All connector addresses filled in by one Default differ, in whatever order links are visited, for every lab of fewer than 2^48 connectors. |
| Defaulted.AddressesApart | internal/webhook/v1beta1/lab_webhook.go:75-159 | No connector address filled in by a Default equals a chassis address it fills in. |
| Defaulted.OneLinkAddresses | internal/webhook/v1beta1/lab_webhook.go:75-86 | In a lab of one link the connectors are numbered from 1. |
| EndToEnd.GivenMacsDiffer | internal/webhook/v1beta1/lab_webhook.go:147-159 | All chassis addresses filled in by one Default differ. |
| Sysinfo.GetDefaultSysinfoStr | api/v1beta1/sr.go:223-258 | The string grown part by part is the reference text, whatever the XIOMs contribute. |
| Sysinfo.SysinfoWords | api/v1beta1/sr.go:223-258 | Word for word, for a card without XIOMs: chassis, SFM, card and slot, the MDAs numbered from 1, and a MAG-c's extras. |
| Sysinfo.GetChassisFromSysinfoStr | api/v1beta1/common.go:496-505 | The loop returns what follows the first field that starts with "chassis=". |
| Sysinfo.ChassisReadBack | api/v1beta1/common.go:496-505 | Reading back gives the model up to its first white space, whatever follows in the string. |
| Sysinfo.SysinfoRoundTrip | api/v1beta1/sr.go:223-258 | The generated sysinfo gives the model back if and only if the model has no white space. |
| Sysinfo.NetworksPlannedIff | api/v1beta1/srvm_ensure.go:334-378 | Whatever the sysinfo says, every bridge a machine refers to is among those Ensure plans if and only if the chassis is distributed or the machine refers to none. |
| Sysinfo.GeneratedSysinfoAgrees | api/v1beta1/srvm_ensure.go:334-378 | With the generated sysinfo, for every model, every bridge referred to is planned, with exactly one exception: the data fabric of a MAG-c line card whose model counts as integrated. |
| Sysinfo.IntegratedMagcMisses | api/v1beta1/srvm_ensure.go:334-378 | The exception in the smallest case: card "1" of node "magc-1" with model "SR-1". |
| Sysinfo.GeneratedSysinfoUsesFabric | api/v1beta1/srvm_ensure.go:336 | For a model without white space the machine asks for the fabric if and only if it is planned. |
| Bridges.NetworksStandIff | api/v1beta1/srvm_ensure.go:334-378 | For networks that did not exist before: all a machine refers to stand in the cluster, owned by the lab, once the node is passed, if and only if the chassis is distributed or the machine refers to none. |
| Bridges.GeneratedNetworksStand | api/v1beta1/srvm_ensure.go:334-378 | With the generated sysinfo all networks a machine refers to stand and are the lab's once the node is passed, but for the one MAG-c exception. |
| EndToEnd.AdmittedFabricStands | api/v1beta1/srvm_ensure.go:334-378 | The same for a lab as it was admitted: the chassis is the one defaulted and validated, the model the one the reconcile reads. |
| Chassis.Card.FillDefaultVal | api/v1beta1/sr.go:291-332 | Each field keeps what it had or gets the default of its type, slot and first MDA; it panics if and only if a MAG-c line card has no MDA list. |
| Chassis.FillCard | api/v1beta1/srvm.go:149-152 | One card ends up filled; a field changes only from nothing to a default of a slot the card is in. |
| Chassis.FillCards | api/v1beta1/srvm.go:145-153 | All cards of an acceptable chassis end up filled, in whatever order; nothing changes for an unacceptable one; it panics if and only if some line card of a MAG-c has no MDA list. |
| DefaultCards.DemandAgreesIff | api/v1beta1/sr.go:291-322 | Memory and CPU filled in for a card are those the default chassis gives the same card, with exactly one exception: card "2" of a MAG-c. |
| DefaultCards.GatewayGetsLess | api/v1beta1/sr.go:312-320 | The exception, a gateway, is given the resources of a load balancer, because filling in looks for "iom-v-mg" among the MDAs. |
| DefaultCards.PortsAgree | api/v1beta1/sr.go:323-332 | The listening ports filled in are those of the default chassis, for every card. |
| DefaultPort.CollectNumbers | api/v1beta1/sr.go:267-282 | The loop collects exactly the numbers of the eligible cards, and panics if and only if some card is unreadable. |
| DefaultPort.GetDefaultMDASlot | api/v1beta1/sr.go:261-289 | Panics exactly on an unreadable chassis; otherwise returns a permitted choice. |
| DefaultPort.ChoiceIsLeastSlotIff | api/v1beta1/sr.go:261-289 | For a distributed chassis the choice is the eligible slot with the least number if and only if some card with the least number has its key printed canonically; other keys do not matter. |
| DefaultPort.ChoiceIsLeastEligible | api/v1beta1/sr.go:261-289 | With all slots written as numbers are printed and some eligible card, the choice is the eligible slot with the lowest number. |
| DefaultPort.ChoiceOnCards | api/v1beta1/sr.go:261-289 | In terms of the cards: with numbers as keys of the line cards the choice is the lowest-numbered slot that is no CPM, and for a MAG-c the lowest-numbered whose card is an "iom-v" in upper or lower case; "n/a" if there is none. |
| DefaultPort.MagcDefaultChoice | api/v1beta1/sr.go:188-219 | For the default chassis of a MAG-c the choice is "1", not the gateway in "2". |
| DefaultPort.ChoiceIsSlotIff | api/v1beta1/sr.go:261-289 | The choice is a slot of the chassis at all if and only if, integrated, the chassis has a card, or, distributed, the least eligible number printed is a key. |
| DefaultPort.ChoiceIsUnique | api/v1beta1/sr.go:267-287 | For a distributed chassis the choice does not depend on map order. |
| DefaultPort.NoEligibleCard | api/v1beta1/sr.go:284-288 | The choice is "n/a" if and only if no card is eligible. |
| DefaultPort.PaddedSlotIsMissed | api/v1beta1/sr.go:284-287 | A chassis for which it fails: the only line card's key is padded, and the choice is a slot the chassis does not have. |
| LabSpec.NodeClosureIsLeast | internal/webhook/v1beta1/lab_webhook.go:76-99 | The nodes after Default are the least set with the user's nodes, every connector's node and each distributed router's control card; the user's entries are kept. |
| LabSpec.DefaultedIsSettled | internal/webhook/v1beta1/lab_webhook.go:63-162 | The nodes a successful Default returns leave nothing to add. |
| LabSpec.SettledIsFixed | internal/webhook/v1beta1/lab_webhook.go:63-162 | Defaulting a settled lab succeeds and changes no node. |
| LabSpec.LoadedSettles | api/v1beta1/knlconfig_types.go:135-159 | Loading the configuration's defaults twice is loading them once. |
| NodePasses.FillLinks | internal/webhook/v1beta1/lab_webhook.go:75-86 | Missing connector nodes are added and each link's unset addresses are derived from a range of offsets of its own; the ranges do not meet and all lie below the number of connectors. |
| NodePasses.AddControlCards | internal/webhook/v1beta1/lab_webhook.go:88-99 | Ranging over the map it inserts into adds exactly the control cards of the nodes it began with, whether added keys are visited or not. |
| NodePasses.AssignTypes | internal/webhook/v1beta1/lab_webhook.go:103-113 | Nodes without a system get one by name; an error if and only if some such name tells no type. |
| NodePasses.LoadDef | api/v1beta1/knlconfig_types.go:135-159 | Each node is merged with the configuration's default for its kind; an error if and only if some node has no system. |
| Defaulting.FillNode | api/v1beta1/srvm.go:101-153 | The type is set and the cards filled; panics if and only if a chassis or a needed MDA list is missing. |
| Defaulting.FillNodes | internal/webhook/v1beta1/lab_webhook.go:123-129 | The same over all nodes: the result and the panic do not depend on the order, and card fields change only from nothing to a default. |
| Defaulting.FillPorts | internal/webhook/v1beta1/lab_webhook.go:131-145 | Every router connector without a port gets a permitted choice of its chassis, all else stays; panics if and only if some such node has the wrong type or an unreadable chassis. |
| Defaulting.FillChassisMacs | internal/webhook/v1beta1/lab_webhook.go:147-159 | Routers without an address get the one of their place in the sorted node list; panics if and only if a name's type and the system disagree. |
| Admission.Default | internal/webhook/v1beta1/lab_webhook.go:63-162 | Whether it succeeds, fails or panics, and on success all nodes, are functions of the lab and the configuration. Links differ only in which offsets, all different and below the number of connectors, their derived addresses have and which slot an integrated chassis yields. On success all cards are filled; no card field changes but from nothing to a default of its slot. |
| Defaulted.DefaultedKinds | internal/webhook/v1beta1/lab_webhook.go:103-113 | When Default succeeds, a node keeps the systems it had; one that had none has exactly one, of the type its name tells. |
| Defaulted.UnlistedNode | internal/webhook/v1beta1/lab_webhook.go:76-113 | A connector's node that the user does not list, such as "vm-1", gets the one system that stands before the first dash. |
| Defaulted.DefaultedFields | internal/webhook/v1beta1/lab_webhook.go:63-162 | What a successful Default leaves in every field: what the user gave, else what the configuration has; the chassis type of the kind; a router's address by its place in the sorted list. |
| Defaulted.DefaultErrsIff | internal/webhook/v1beta1/lab_webhook.go:103-113 | Default fails with an error if and only if some node has no system and a name that tells no kind. |
| Defaulted.PlainLabSucceeds | internal/webhook/v1beta1/lab_webhook.go:63-162 | Default succeeds for every lab that leaves its nodes to the defaults when every name tells a kind and the configuration's default chassis are usable. |
| Settling.DefaultedConnector | internal/webhook/v1beta1/lab_webhook.go:76-145 | What becomes of one connector: node and given port kept, address kept or derived, a router's missing port chosen. |
| Settling.DefaultSettles | internal/webhook/v1beta1/lab_webhook.go:63-162 | What a successful Default leaves is settled: nodes, links and cards. |
| Settling.SettledUnchanged | internal/webhook/v1beta1/lab_webhook.go:63-162 | Default changes neither spec nor cards of a settled lab. |
| Settling.DefaultTwice | internal/webhook/v1beta1/lab_webhook.go:63-162 | A second Default after a successful one succeeds and changes nothing, whatever orders either run meets. |
| Settling.CopyIsSettled | internal/webhook/v1beta1/lab_webhook.go:207 | A deep-equal copy with card objects of its own is settled too. |
| Updates.SameSpecIff | internal/webhook/v1beta1/lab_webhook.go:207-212 | The comparison ValidateUpdate makes accepts a spec if and only if it is written the same, in every field of every card, system and node and in every link, whichever objects hold the cards. |
| Updates.AdmitUpdate | internal/webhook/v1beta1/lab_webhook.go:194-212 | Under whatever configuration is then in force, a request that leaves an admitted lab's spec alone passes both checks of ValidateUpdate if and only if that configuration sets no field the stored nodes leave unset. |
| Updates.NewDefaultIsNew | api/v1beta1/knlconfig_types.go:135-159 | For instance, a configuration that comes to set one field a stored node lacks does not pass. |
| Updates.FinalizerUpdatePasses | internal/webhook/v1beta1/lab_webhook.go:194-212 | While the configuration the lab was admitted under is in force, an update of the finalizers passes and changes neither spec nor cards. |
| Updates.LoadedUnchangedIff | api/v1beta1/knlconfig_types.go:135-159 | LoadDef leaves a node alone if and only if the configuration sets no field the node leaves unset. |
| Updates.SameSpecValid | api/v1beta1/node.go:74-107 | A spec deep-equal to a valid one is valid. |
| Validation.ValidateOne | api/v1beta1/node.go:35-55 | The counting loop accepts if and only if exactly one system is given. |
| Validation.SpecifiedCounts | api/v1beta1/node.go:35-55 | What it counts is the number of different systems given. |
| Validation.ValidRouter | api/v1beta1/srvm.go:155-183 | A validated router node has an acceptable chassis, and every port given for it is one of its slots. |
| Validation.ValidRouterIsComplete | api/v1beta1/srvm.go:155-183 | A validated router has image, licence and dedication, a card in slot "A", and on every card a model, and XIOMs or MDAs but not both. |
| Validation.ValidNodeIsComplete | api/v1beta1/node.go:74-107 | What every other kind must have. |
| Validation.ValidLink | api/v1beta1/link.go:29-44 | Every link of a valid lab joins at least two connectors, each of a named node. |
| Validation.SmallLab | api/v1beta1/node.go:74-107 | A small lab that is valid, and is not with one end of its link missing. |
| Validation.ValidateRouter | api/v1beta1/srvm.go:155-183 | SRVM.Validate as a whole accepts if and only if chassis, image, licence and dedication are given, the image reference is one, the chassis is acceptable and every port given for the node is one of its slots. |
| Validation.ValidateSystem | api/v1beta1/node.go:82-85 | The validation of a node's system by kind computes the condition of that kind. |
| Validation.Validate | api/v1beta1/node.go:74-107 | LabSpec.Validate accepts if and only if there are nodes, each has exactly one system that is valid for its links, and each link is valid, in whatever order the maps yield them. |
| Sharing.Config.Set | api/v1beta1/cfg.go:26-35 | A configuration is taken over if and only if its generation differs. |
| Sharing.Serve | api/v1beta1/srvm.go:145-153 | Over any sequence of labs and configurations, whatever the outcomes, a card field is written at most once and never changes after. |
| Isolation.SecondLabSeesFirst | api/v1beta1/common.go:197-200 | Two chassis with the same cards and different models: after both are filled a card that had no sysinfo tells the first model. |
| Isolation.FillCardsTells | api/v1beta1/srvm.go:145-153 | After its cards are filled a chassis sees its own model in a card if and only if the card had no sysinfo and the model no white space, or what it had told this model already. |
| Isolation.IsolatedIff | api/v1beta1/srvm.go:145-153 | All nodes of a lab that have a card see their own model in it if and only if the card had no sysinfo and they agree on a model without white space, or what it had told their models already. |
| Isolation.DefaultIsolates | internal/webhook/v1beta1/lab_webhook.go:63-162 | The same condition for every card of every successful Default, shared or not, whatever the orders. |
| Isolation.TwoLabsOneConfig | api/v1beta1/common.go:197-200 | A failing input as users send it: two one-node labs with different models that take their card from the same configuration are both admitted, and the second carries the model of the first. |
| Isolation.ForeignSysinfoBreaksFabric | api/v1beta1/srvm_ensure.go:336 | With the sysinfo of another, distributed model a vsim with an integrated chassis refers to a fabric that is not planned. |
| Isolation.OwnCardAgrees | api/v1beta1/srvm_ensure.go:334-378 | For a card in one slot only and without user sysinfo: what Default writes refers only to planned bridges, if and only if the card is not the MAG-c exception. |
| Wiring.PortLinks | api/v1beta1/srvm_ensure.go:381-408 | The port-link loops yield exactly the spokes of the card's port, link by link in sorted order; a panic if and only if some connector has no port. |
| Wiring.CardInterfaces | api/v1beta1/srvm_ensure.go:381-408 | With the maps of EnsureLinks a card's link interfaces are those of the connectors plugged into it, in sorted-link then connector order. |
| Wiring.LoopsNeedPorts | api/v1beta1/srvm_ensure.go:381-388 | The machines of a node can be described without a panic if and only if every connector of the node has a port. |
| Machines.SameMachineName | api/v1beta1/srvm_common.go:106-108 | Two cards of a lab have the same machine name if and only if "node-slot" agree in lower case. |
| Machines.MachineInParts | api/v1beta1/srvm_common.go:106-108 | A machine's name is the lower-cased lab, node and slot, joined by dashes. |
| Machines.EnsureMachines | api/v1beta1/srvm_ensure.go:98-151 | The node and card loops, in whatever order, make the machines one after the other by get-or-create under the lower-cased name; they fail if and only if some router with cards has a connector without a port, or a machine of somebody else has the name. |
| Wiring.NamedCount | api/v1beta1/srvm_ensure.go:386-405 | Among the interfaces made of a list of connectors a connector's own occurs as often as the connector in the list. |
| Wiring.MachineCount | api/v1beta1/srvm_ensure.go:381-408 | Over all cards in any order, the interfaces the loops yield for a connector are as many as the cards it is plugged into. |
| Wiring.MachineOnly | api/v1beta1/srvm_ensure.go:381-408 | Every interface the loops yield for a node is that of a connector of the node whose port is one of the cards. |
| Wiring.AttachmentsDiffer | api/v1beta1/srvm_ensure.go:391-399 | Different connectors become interfaces of different names. |
| Placement.AloneIsPlaced | api/v1beta1/srvm_ensure.go:148-151 | The interface of a card whose machine name is its own is in exactly one stored machine of the lab, the card's, in whatever order machines are made, also when earlier reconciles made some. |
| Placement.SharedIsLost | api/v1beta1/srvm_ensure.go:148-151 | When another card of that name is reached first the interface is in no machine at all. |
| Placement.PlacedIff | api/v1beta1/srvm_ensure.go:148-151 | In a new lab an interface is in exactly one stored machine for all orders if and only if no other card of the lab has its card's machine name. |
| Validation.ValidatePorts | api/v1beta1/srvm.go:173-181 | Accepts if and only if every port given for the node is a slot of its chassis. |
| EndToEnd.RouterPortsSet | internal/webhook/v1beta1/lab_webhook.go:131-145 | After Default every connector of a router node has a port, so building its machines does not panic. |
| EndToEnd.RunPassed | internal/controller/lab_controller.go:113-125 | Whenever a run from an initial cluster comes to the nodes of a lab, the VNIs noted for its links differ, whatever names collide, whoever interferes, deletion included. |
| EndToEnd.EveryConnectorAttached | api/v1beta1/srvm_ensure.go:381-408 | For a lab that was defaulted and validated, whenever EnsureLinks has succeeded: over all cards of its node in any order, the interfaces getVMI makes from the maps contain each connector of a vsim, vsri or magc exactly once. |
| EndToEnd.OnlyConnectorsAttached | api/v1beta1/srvm_ensure.go:381-408 | They contain nothing that is no connector's of that node. |
| EndToEnd.ConnectorPlacedIff | api/v1beta1/srvm_ensure.go:148-151 | Among the machines stored for a new lab, each connector of a router is in exactly one, whatever the orders, if and only if no other card of the lab has the same machine name as the card it is plugged into. |
| EndToEnd.ConnectorStaysPlaced | api/v1beta1/srvm_ensure.go:148-151 | With a machine name of its own it is there also when earlier reconciles made some of the machines. |
| EndToEnd.AddedNodeCollides | internal/webhook/v1beta1/lab_webhook.go:88-99 | The failing input: for every distributed router node whose card is "A", such as "vsim-1-A", Default adds the node with card "a", and the two share machine names and fabric. |
| EndToEnd.AttachedToStoredLan | api/v1beta1/srvm_ensure.go:389-397 | The interface names the LAN of the connector's link; where it is stored it is owned by the lab, and has the interface's spoke at the connector's place. |
| EndToEnd.LanHasTwoSpokes | api/v1beta1/link.go:29-44 | In an admitted lab the LAN stored for a link has at least two spokes. |
| EndToEnd.RouterHasChassis | internal/webhook/v1beta1/lab_webhook.go:123-145 | The node of a router's connector exists in a defaulted lab and has a chassis. |

## Left out

- Reconciler.EnsureNodes: the nodes whose virtual machine or pod cannot be had are a parameter, because disk images, secrets,
  licence files, folders and the machine objects themselves are file-system and client plumbing.
- Reconciler.CreateLanIfNotExists: the remove flag is not modelled, since the controller never sets it; the variant that deletes
  and recreates failed machines depends on API timing and is left out.
- Machines.EnsureMachines: of a machine only its owner and link interfaces are modelled, and its calls cannot fail; that machines
  that failed are deleted and made again is not.
- EndToEnd.ConnectorStaysPlaced: that stored machines of the lab were made for its cards, and none of somebody else has the name,
  is a hypothesis, since machines are not part of the cluster state.
- Reconciler.GetAvailableBrIndex: a negative bridge index label counts as unreadable here, while the source hands its
  wrapped-around value to the bit set; the operator itself writes no such label.
- Reconciler.GetAvailableVNIs: VNIs are natural numbers, so a negative VNI written by somebody else is not modelled.
- Sysinfo.SysinfoRoundTrip: what XIOM entries contribute is an arbitrary text, because the source prints a pointer there in map
  order.
- Merge.FillNilPointersValue: works on values; that copied leaf pointers are shared with the source value matters only for cards,
  which `Chassis` models as objects.
- Chassis.FillCard: a card entry that is null in the request is not modelled.
- Reconciler.MarkIndexes: the same holds of the labels it reads.
- Updates.AdmitUpdate: the request is taken as deep-equal to what is stored; that an empty cards map is dropped when a lab is
  written as JSON and read again is not modelled.
- NodePasses.LoadDef: the configuration's default node is taken as present, which its own webhook ensures.
- Validation.ValidRouter: the checks of `LabSpec.Validate` that parse text with a library (image references, SR-SIM ports, shell
  commands, SR Linux chassis types, MAC addresses) are parameters; prefixes and routes of connectors are not modelled.
- Lower-casing is modelled for ASCII; Go also lower-cases other letters.
- Bridge name, VxLAN name, device map, MTU and the attachment-definition name of a spoke: fixed strings or functions of names
  and numbers that are modelled; the last is defined in another repository.
- SR-SIM, SR Linux, VM and pod manifests, CPU and memory requests of machines, UUIDs and affinity: field copying.
- Hashed interface names, cloud-init and ignition documents, the sidecar hook, and the shell and console commands.
- Manager start-up, caches, field indexers, status conditions and logging.
