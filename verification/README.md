# A verified model of union-operator

union-operator reconciles `UnionTeamServiceAccounts` resources. For every resource it keeps
Kubernetes and Google service accounts, the Istio objects that let allowlisted hosts and
CloudSQL instances be reached through two shared egress gateways, one authorization policy
per service account and host, and a history of allowlists. This project models the reconcile
loop in Dafny and proves what it keeps at every API call and where it leads.

## How the model is built

- `Resources` holds the custom resource, the object builders with their names, ports, labels
  and routes, and the requests a specification stands for. Objects live in one map keyed by
  kind, namespace and name, as in the API server. `Text`, `HostList` and `Names` treat host
  names, the byte order Go sorts by, gateway host lists and derived names.
- `Entitlements` writes out what the allowlists stand for: the requests and targets of a
  specification, whom and what a policy admits, and what a policy member grants.
- `Protocol` is an automaton over single events: an API call, a row inserted in the history,
  finalizers stored, resources read, resources edited by users. Its state remembers the
  specifications as the operator last read them, and which of them belonged to resources that
  were not being deleted then. `Permitted` says when the operator may make a call; `Replay` runs
  a sequence of events. `Safety` says what must hold at every call boundary (`Safe`) and proves
  it for all runs.
- `ApiServer.Cluster` is the mutable cluster. Any call may fail, with or without having taken
  effect, and users may edit the resources before any call. Its ghost `run` records every
  event, and `Valid()` says that this run is a permitted one. So a method that keeps
  `Valid()` has shown every one of its calls to be permitted at the moment it is made.
- `EgressReconciler`, `PolicyReconciler`, `EgressCleanup`, `AccountReconciler` and
  `Controller` are the operator's loops as methods on the cluster. `EgressSpec`,
  `AccountSpec` and `Controller.Reconciled` say what they do to the objects when they succeed;
  without a fault they fail exactly where the specification has no result. Their contracts also
  say what a failure leaves. What stops at the first error meets at most one fault
  (`EgressReconciler.FailsFast`); what goes on leaves no more undone than calls have failed
  (`EgressCleanup.Bounded`); no stage begins before the run has passed through the exact result
  of the stage before (`ApiServer.Passed`, `Controller.Objecting`).
- `Convergence`, `Separation`, `Namesakes`, `Confluence`, `Stability`, `Scoped`, `Progress`,
  `Routes`, `Guarantees` and `AccountFacts` prove what follows. `Queues` goes from a queue of
  reconciles to passes over the objects, `Towards` brings the theorems back to the methods
  that make the runs, and `Witnesses` holds concrete clusters for the surprising cases.

External hosts and CloudSQL instances are one type, `Target`: the two ensure loops and the two
gateway cleanups of the source are the same code with other builders, and one method takes the
side as an argument. The `host` label of a target, its entry in the gateway and its object
names are functions of the target.

## Assumptions

- One worker, and fresh reads: between two calls only users act, and only on resources. They
  do not touch the operator's finalizer and do not move a resource that holds it to another
  project or domain (`Protocol.Edited`).
- At most one resource per project and domain, as the admission policy demands.
- The external gateway is absent or has the one HTTPS server on port 80 it is created with;
  the CloudSQL gateway, where present, has one TLS server (`Protocol.Shaped`).
- The SHA-256 digits are an arbitrary function in `Config`. Nothing is assumed about
  collisions except where a statement says `Separated`: on a scope of targets and policies
  that were ever allowlisted, labels, object names and policy names are distinct, and no
  internal policy is for a host that is also a target. Names are ASCII, so that bytes are
  characters.
- `DistinctAccounts`, where it appears, says that account names are not repeated within a
  resource.

## Results that may surprise

- One successful reconcile is not always enough. Policies and VirtualServices are unique by
  names that several of them can share. If the name is held by an object that a cleanup
  removes in the same reconcile, the creation is passed over and the old object then goes.
  `Namesakes.GrantedExactly` says for each policy, and `Namesakes.OneReconcileExact` for a whole
  reconcile, exactly when this happens, by what can be read from the objects before it.
  `Witnesses.SharedVipLost` gives it for two on-prem hosts with one virtual IP, and
  `Witnesses.DashedAccounts` has two accounts whose policy names are equal. Two reconciles
  always settle (`Stability.TwoReconcilesSettle`); with separated names one does
  (`Stability.OneReconcileSettles`).
- Deleting a resource leaves policies of accounts that were dropped from it without a
  reconcile in between: `Guarantees.DeletionExact` says exactly when nothing is left,
  and `Witnesses.DroppedAccountLeft` gives a case where something is. From the end of a
  successful reconcile on, as long as the specification stays as it is, the finalizer does
  wait for the last policy (`Guarantees.FinalizerSafe`).
- `Namesakes.EgressPolicyFate` says exactly when an egress policy goes: for a listed account
  not when its own allowlist drops the host, but when all allowlists have. And
  `AccountFacts.ViewerStays` shows that the data bucket viewer, one of four policy members that
  are created, is not among the three that are deleted (the comment on `cleanupIAMPolicyMembers`
  speaks of three; the code creates four).
- A resource that is being deleted still counts for the gateways: its hosts stay listed, while
  nothing ensures the objects behind them. So the canonical end states are stated for clusters
  in which nothing is being deleted; safety, scope, progress and non-interference are not.

## Model

| member | source | states |
|---|---|---|
| `HostList.AppendSortedCompact` | internal/istio/gateway.go:93-97 | appending, sorting and compacting gives the one strictly ascending list of the old hosts and the new one |
| `HostList.SortedKeys` | internal/istio/cleanup.go:210-212 | the sorted keys of a map are the ascending list of the key set, whatever order Go iterates it in |
| `HostList.AscendingUnique` | internal/istio/gateway.go:93-97 | two ascending lists of the same hosts are equal, so a gateway list is a function of a set |
| `HostList.FoldedCanonical` | internal/istio/gateway.go:37-53 | adding hosts in any order with any repeats gives the list the cleanup writes; re-adding changes nothing |
| `Text.DashedInvertible` | api/v1alpha1/unionteamserviceaccounts_types.go:62-77 | for a dash-free host the name has the same length and can be turned back |
| `Text.DashedInjective` | api/v1alpha1/unionteamserviceaccounts_types.go:62-64 | dash-free hosts with the same name are the same host |
| `Text.DashedCollides` | api/v1alpha1/unionteamserviceaccounts_types.go:62-64 | without that condition two hosts share a name |
| `Text.BelowExact` | internal/istio/gateway.go:93-97 | strings are ordered by the first character in which they differ, beginnings first |
| `Names.SqlHostInjective` | api/v1alpha1/unionteamserviceaccounts_types.go:71-73 | dotted addresses with the same gateway host are the same instance |
| `Names.SqlNameInjective` | api/v1alpha1/unionteamserviceaccounts_types.go:75-77 | dotted addresses with the same object name are the same instance |
| `Names.MemberNameInjective` | internal/serviceaccount/iam.go:29-60 | a policy member's name determines its service account and its role |
| `Names.RuleNameInjective` | internal/istio/destinationrule.go:43-108 | a destination rule's name determines its target's name and its direction |
| `Names.NamespaceInjective` | internal/types/types.go:88-90 | the namespace determines project and domain when domains have no dash |
| `Names.NamespaceCollides` | internal/types/types.go:88-90 | without that condition two teams share a namespace |
| `Names.TruncatedDistinct` | internal/types/types.go:88-94 | a truncated name is the beginning of the full name, a dash and the digest of the full name, within the limit and distinct whenever the digests are |
| `Names.NameLengths` | internal/types/types.go:103-109 | policy names fit 63 characters and Google service account names 28; a full name is cut only where it and its digest would not fit, and then as little as that takes |
| `Entitlements.RequestsExact` | internal/istio/reconciler.go:129-159 | the policies requested are exactly those of the external hosts, the CloudSQL instances, and the on-prem hosts and their virtual IPs that the accounts list, with host, paths and protocol |
| `Entitlements.CheckedFor` | internal/istio/authorizationpolicy.go:41-52 | the check for an existing policy goes by every label but the kind of host |
| `Entitlements.TargetsExact` | internal/istio/reconciler.go:18-127 | the targets of a specification are exactly the hosts and instances its accounts list |
| `Entitlements.PolicyWritten` | internal/istio/authorizationpolicy.go:73-128 | a request has a policy exactly for HTTPS or TCP in any letter case; it admits the service account its labels name and opens its host, with its paths or by its server name |
| `Entitlements.RequestEntitled` | internal/istio/authorizationpolicy.go:41-71 | every policy the operator makes opens what one entry of a listed account's allowlists names, to that account |
| `Entitlements.MemberWritten` | internal/serviceaccount/iam.go:28-82 | each of the four members has the name, labels, project, role, resource and member its kind calls for |
| `Entitlements.OneWriter` | internal/serviceaccount/iam.go:39-51 | of the members of an account exactly the object admin may write to a bucket |
| `Safety.PoliciesAdmitStep` | internal/istio/authorizationpolicy.go:96-128 | after every permitted call each policy admits only the account and opens only the host that its labels name |
| `Safety.MembersGrantStep` | internal/serviceaccount/iam.go:84-137 | after every permitted call each policy member grants what its kind calls for to an account of its namespace |
| `Safety.NoOrphansStep` | internal/istio/cleanup.go:201-221 | a permitted call leaves every egress object listed in a gateway: objects are made after their entry and deleted before it |
| `Safety.AuditedStep` | internal/controller/unionteamserviceaccounts_controller.go:145-163 | a permitted call leaves every policy with a history row that covers it |
| `Safety.IndexedStep` | internal/serviceaccount/cleanup.go:196-214 | a permitted call leaves every policy member the cleanup knows of beside its service account, labelled as the cleanup selects it |
| `Safety.AccountLast` | internal/serviceaccount/cleanup.go:97-134 | a service account is deleted only when its three cleaned members and its IAM account are gone |
| `Safety.StillPermitted` | internal/controller/unionteamserviceaccounts_controller.go:175-180 | no edit of resources between two calls takes a permission away |
| `Safety.SafeThroughout` | internal/istio/reconciler.go:18-159 | after every call of every run no egress object is orphaned, every policy is audited and admits only what its labels name, every member grants what its kind calls for beside its labelled service account |
| `ApiServer.Select` | internal/istio/cleanup.go:290-310 | listing by a selector returns the matching objects, each once, in any order |
| `ApiServer.Cluster.Submit` | internal/istio/gateway.go:28-31 | a create, update or delete takes effect, is rejected, or fails with or without effect; the run stays permitted and safe |
| `ApiServer.Cluster.Store` | internal/controller/unionteamserviceaccounts_controller.go:134-142 | finalizers are stored only on the resource as it was read, otherwise the call conflicts |
| `EgressReconciler.VirtualServiceExists` | internal/istio/virtualservice.go:14-25 | true exactly when the name is taken |
| `EgressReconciler.Exists` | internal/istio/destinationrule.go:15-41 | true exactly when an object carries the labels |
| `EgressReconciler.EnsureGatewayExists` | internal/istio/gateway.go:17-35 | creates the external gateway with the host unless it exists |
| `EgressReconciler.EnsureGatewayContainsHost` | internal/istio/gateway.go:37-53 | the gateway gains exactly the host, and a missing gateway is an error |
| `EgressReconciler.EnsureHost` | internal/istio/reconciler.go:21-68 | one round of the ensure loop, entry first and objects after; fails without a fault exactly where a name is taken |
| `EgressReconciler.EnsureHosts` | internal/istio/reconciler.go:18-127 | the objects become the fold of the ensure round over all targets of one side |
| `PolicyReconciler.EnsureGrant` | internal/istio/authorizationpolicy.go:33-71 | creates the policy unless one has its labels; a taken name is passed over, an unsupported protocol is an error |
| `PolicyReconciler.EnsureInternalGrants` | internal/istio/reconciler.go:143-155 | each on-prem host and its virtual IPs in order, unknown hosts skipped |
| `PolicyReconciler.EnsureAuthorizationPolicies` | internal/istio/reconciler.go:129-159 | the objects become the fold over all requests, each of them audited, held and listed before |
| `EgressCleanup.DeleteMatching` | internal/istio/cleanup.go:73-91 | with success exactly the doomed matches are gone, in any case nothing else; unless the loop is hasty, no more of them is left than calls have failed |
| `EgressCleanup.RemoveByHostLabel` | internal/istio/cleanup.go:290-310 | the same for the objects of one kind with the host label; an error keeps no other object from being tried |
| `EgressCleanup.RemoveExternalHost` | internal/istio/cleanup.go:275-288 | with success exactly the objects with the label are gone; errors stop no kind, so of no more kinds is something left than calls have failed |
| `EgressCleanup.HostsInUse` | internal/istio/cleanup.go:182-189 | the collected map keys are the hosts all allowlists ask for |
| `EgressCleanup.RemoveStaleHosts` | internal/istio/cleanup.go:203-209 | with success exactly the objects of unused entries are gone; the first entry that fails ends it, with those before done and those after untouched |
| `EgressCleanup.RewriteEntries` | internal/istio/cleanup.go:210-220 | the entries become the hosts in use, or the gateway is deleted, only once nothing carries the leaving labels |
| `EgressCleanup.CleanupSide` | internal/istio/cleanup.go:179-273 | one gateway's cleanup is the sweep of its side; a failed one has only deleted objects of unused entries; a missing gateway is left alone |
| `EgressCleanup.CleanupDropped` | internal/istio/cleanup.go:99-141 | with success exactly the policies of accounts not in the specification are gone, empty account labels passed over; once listed, no more is left than calls have failed |
| `EgressCleanup.CleanupTerminated` | internal/istio/cleanup.go:59-92 | with success exactly the policies of the accounts in the deleted specification are gone; a failed deletion stops nothing, a failed listing ends it at its account |
| `EgressCleanup.CleanupRevoked` | internal/istio/cleanup.go:143-168 | with success exactly the internal policies whose parent host is not allowed are gone, over all resources; the first error ends it |
| `EgressCleanup.CleanupUnusedHosts` | internal/istio/cleanup.go:34-53 | the three cleanups in order, by the specifications listed at the start, each begun only once the one before is complete |
| `AccountReconciler.ReconcileIamAccount` | internal/serviceaccount/iam.go:145-190 | creates the IAM account or patches its metadata |
| `AccountReconciler.ReconcileServiceAccount` | internal/serviceaccount/iam.go:192-221 | creates the service account, or updates its metadata, and makes no call that writes if that changes nothing |
| `AccountReconciler.CreateMembers` | internal/serviceaccount/iam.go:28-82 | creates the four members that are missing, beside their service account |
| `AccountReconciler.CleanupMembers` | internal/serviceaccount/cleanup.go:138-175 | deletes three members; an error keeps none from being tried, so no more of them is left than calls have failed |
| `AccountReconciler.CleanupIam` | internal/serviceaccount/cleanup.go:97-134 | with success the three members and the IAM account are gone, in any case nothing else, and no more of them is left than calls have failed |
| `AccountReconciler.RemoveAccount` | internal/serviceaccount/cleanup.go:66-81 | the service account goes only after its IAM objects are gone |
| `AccountReconciler.Contains` | internal/serviceaccount/cleanup.go:85-93 | true exactly when an account has the name |
| `AccountReconciler.CleanupRemovedAccounts` | internal/serviceaccount/cleanup.go:52-83 | with success exactly the leaving accounts and their IAM objects are gone; one that cannot be removed keeps no other from being tried |
| `AccountReconciler.CleanupRemovedAccountsFirst` | internal/serviceaccount/cleanup.go:179-216 | the other loop computes the same function |
| `AccountReconciler.CreateOrUpdateServiceAccounts` | internal/serviceaccount/reconciler.go:28-43 | every account ensured in order, then the leaving ones removed; nothing is deleted before all are ensured |
| `AccountFacts.MetadataIdempotent` | internal/serviceaccount/reconciler.go:47-64 | the union labels and the given annotations are set, all others stay and no others appear; setting them twice is setting them once |
| `AccountFacts.AccountsExact` | internal/serviceaccount/reconciler.go:28-43 | the labelled service accounts become exactly the specification's, with all four members and the address of their Google account; the IAM account carries labels and project, and is missing exactly when, before the pass, a leaving account shared its Google name |
| `AccountFacts.NoMemberForgotten` | internal/serviceaccount/cleanup.go:179-216 | where the namespace is the team's own, no cleaned member of an unlisted account is left after a successful pass, whatever failed before |
| `AccountFacts.PassReady` | internal/controller/unionteamserviceaccounts_controller.go:149-154 | after the service account part every listed account is ready and no dropped one is left |
| `AccountFacts.NewMembersGrant` | internal/serviceaccount/iam.go:28-82 | each member that a pass adds grants what its kind calls for, and the workload identity binds the service account to the Google account its annotation names |
| `AccountFacts.WritersStand` | internal/serviceaccount/cleanup.go:138-175 | in every safe world whoever may write to the data bucket is a standing labelled service account of the operator |
| `AccountFacts.ViewerReads` | internal/serviceaccount/cleanup.go:144-148 | the member that the cleanup leaves behind only ever grants viewing the bucket |
| `AccountFacts.SecondCleanupIdle` | internal/controller/unionteamserviceaccounts_controller.go:149-154 | the second cleanup of a reconcile changes nothing |
| `AccountFacts.ViewerStays` | internal/serviceaccount/cleanup.go:144-148 | a data bucket viewer outlives the cleanup of its account |
| `Controller.PersistAllowlist` | internal/persist/persist.go:73-115 | with success exactly one row per account is appended, in order; on failure the first of them, up to the one that failed |
| `Controller.RowsExact` | internal/persist/persist.go:85-143 | each row has its account's three lists in order, and the resource's team, origin annotations and creation time |
| `Controller.RowsCover` | internal/persist/persist.go:117-143 | the rows of a resource cover every policy it asks for |
| `Controller.EnsurePhase` | internal/controller/unionteamserviceaccounts_controller.go:155-163 | hosts of both sides, then policies, each creation permitted at its moment; the first error ends it and nothing is lost |
| `Controller.ReconcileNormal` | internal/controller/unionteamserviceaccounts_controller.go:144-169 | the whole pass over the objects by the resource as read and the specifications as listed last, under any edits in between; wherever it fails, no object is touched before all rows are written, no egress object before the service accounts are ready, and nothing is cleaned before everything is ensured |
| `Controller.ReconcileDeleted` | internal/controller/unionteamserviceaccounts_controller.go:114-132 | policies first, the finalizer after; whatever fails, nothing but policies of listed accounts is deleted |
| `Controller.EnsureFinalizer` | internal/controller/unionteamserviceaccounts_controller.go:134-142 | the resource holds the finalizer before anything else is done |
| `Controller.Reconcile` | internal/controller/unionteamserviceaccounts_controller.go:64-172 | undisturbed, the world becomes what Reconciled says; without a fault it fails exactly where that has no result; wherever a call fails, the world tells how far it came, stage by stage |
| `Controller.Work` | internal/controller/unionteamserviceaccounts_controller.go:174-180 | one worker with any queue, any faults and any edits is safe at every call boundary; undisturbed, the world becomes what the reconciles make of it one by one |
| `Convergence.TargetsExtend` | internal/istio/reconciler.go:18-127 | ensuring satisfies every existence check, loses nothing and adds only what its targets call for |
| `Convergence.TargetsIdle` | internal/istio/reconciler.go:18-127 | where every check is satisfied the ensure loops change nothing |
| `Convergence.PoliciesAdd` | internal/istio/authorizationpolicy.go:53-67 | every request is met or its name is taken; no existing policy is ever changed |
| `Convergence.RequestAsksFor` | internal/istio/reconciler.go:129-159 | every request belongs to a listed account and to a host of its allowlists |
| `Convergence.CleanAllTidy` | internal/istio/cleanup.go:99-273 | after the cleanups nothing is left to clean |
| `Convergence.TidyIdle` | internal/istio/cleanup.go:99-273 | where nothing is left to clean the cleanups change nothing |
| `Convergence.EnsureAllTidy` | internal/controller/unionteamserviceaccounts_controller.go:155-169 | what a resource ensures is nothing that any cleanup would remove |
| `Convergence.TwoPassesConverge` | internal/controller/unionteamserviceaccounts_controller.go:155-169 | with no name assumed distinct, two passes reach a fixed point in which every policy name asked for is taken |
| `Separation.ServedExactly` | internal/istio/virtualservice.go:14-25 | with separated names the checks by label and by name find exactly the target's own objects |
| `Separation.ServedSurvives` | internal/istio/cleanup.go:182-258 | no cleanup removes a gateway entry or object that any resource asks for |
| `Separation.GrantedSurvives` | internal/istio/cleanup.go:99-168 | no cleanup removes a policy that any resource asks for |
| `Separation.OnePassConverges` | internal/controller/unionteamserviceaccounts_controller.go:155-169 | with separated names the pass after a successful one is the identity |
| `Confluence.AnyOrderCanonical` | internal/istio/cleanup.go:179-273 | passes that cover every resource, in any order from any state of the scope, end with exactly the objects and entries of all allowlists together |
| `Confluence.Confluent` | internal/istio/reconciler.go:18-127 | two such histories end with the same VirtualServices, DestinationRules and ServiceEntries by key, the same external gateway object and the same CloudSQL entries |
| `Confluence.ChildrenProgress` | internal/istio/reconciler.go:29-68 | no creation of a VirtualService, DestinationRule or ServiceEntry hits AlreadyExists |
| `Confluence.ObjectsProgress` | internal/controller/unionteamserviceaccounts_controller.go:145-169 | with separated names and supported protocols a reconcile without a fault has a result |
| `Confluence.FreshStart` | internal/istio/cleanup.go:227-250 | a cluster with only the CloudSQL gateway is a safe start and within every scope |
| `Confluence.FromScratch` | internal/controller/unionteamserviceaccounts_controller.go:145-169 | for any specifications with separated names and supported protocols, covering reconciles in any order all succeed on a fresh cluster and end with exactly what is asked for |
| `Scoped.WithinThroughout` | internal/istio/cleanup.go:34-53 | at every call boundary of every run, whatever fails, the objects were made for what was ever allowlisted, with no name assumed distinct |
| `Queues.QueuePasses` | internal/controller/unionteamserviceaccounts_controller.go:64-172 | a queue of whole reconciles has the effect of the passes of its resources in turn, and fails where they do |
| `Queues.QueueCanonical` | internal/controller/unionteamserviceaccounts_controller.go:64-172 | with separated names, supported protocols and no resource being deleted, reconciles of any queue that covers all resources all succeed, end canonical and give every allowlisted target a way through |
| `Namesakes.CleanExact` | internal/istio/cleanup.go:99-310 | the cleanups remove an object exactly when its account is dropped, its parent host revoked or its host a stale entry, as read before them |
| `Namesakes.EgressPolicyFate` | internal/istio/cleanup.go:201-209 | an egress policy is removed exactly when no allowlist at all asks for its host or its account was dropped |
| `Namesakes.GrantedExactly` | internal/istio/authorizationpolicy.go:41-67 | after a pass a request is granted exactly when the holder of its policy name, an old policy or else the first namesake, is none that a cleanup removes; it has its own policy exactly when that holder is itself |
| `Namesakes.ServedAfter` | internal/istio/virtualservice.go:14-25 | after a pass a target's checks succeed exactly when neither its host nor the host of the VirtualService under its name is stale |
| `Namesakes.OnePassExact` | internal/controller/unionteamserviceaccounts_controller.go:155-169 | with no name assumed distinct, the pass after a successful one is the identity exactly when no needed name was held by something a cleanup removes |
| `Namesakes.OneReconcileExact` | internal/controller/unionteamserviceaccounts_controller.go:64-172 | the same condition decides whether the next whole reconcile leaves gateways, children and policies alone |
| `Witnesses.SharedVipLost` | internal/controller/unionteamserviceaccounts_controller.go:155-169 | for any digest, an account moves between two on-prem hosts with one virtual IP: the pass succeeds, nothing grants the IP, and the next pass does |
| `Witnesses.DashedAccounts` | internal/istio/authorizationpolicy.go:25-31 | two accounts with two hosts have one policy name |
| `Witnesses.TargetNames` | api/v1alpha1/unionteamserviceaccounts_types.go:62-64 | the names of an external host's objects, spelled |
| `Witnesses.InstanceNames` | api/v1alpha1/unionteamserviceaccounts_types.go:71-77 | the host and object name of a CloudSQL instance, spelled |
| `Witnesses.TeamNames` | internal/types/types.go:81-94 | the names of a policy, a service account and a Google account, spelled |
| `Witnesses.DroppedAccountLeft` | internal/controller/unionteamserviceaccounts_controller.go:114-132 | an account dropped just before a deletion: the deletion succeeds, the resource goes, the policy stays |
| `Stability.TwoReconcilesSettle` | internal/controller/unionteamserviceaccounts_controller.go:64-172 | after two successful reconciles every later one succeeds and only appends to the history |
| `Stability.OneReconcileSettles` | internal/controller/unionteamserviceaccounts_controller.go:64-172 | with separated names one is enough for gateways, children and policies |
| `Progress.CallProgress` | internal/istio/reconciler.go:18-159 | no call of a reconcile or a deletion adds a missing or superfluous object, and each effective creation or deletion removes one |
| `Progress.RunProgress` | internal/istio/cleanup.go:34-310 | over a run in which the operator reads the same specifications, whatever fails, is being deleted or is edited unseen, the number of defects never grows and each effective creation or deletion lowers it |
| `Routes.ServedResolves` | internal/istio/virtualservice.go:43-140 | one VirtualService claims the host; its mesh route meets exactly one subset with mutual TLS under the allowlisted name, the gateway lists the host, and the second hop meets a rule for the last leg and a service entry with port, protocol and location |
| `Routes.RoutesResolve` | internal/istio/destinationrule.go:43-108 | this holds for every listed target after successful reconciles in any order |
| `Guarantees.GrantInOrder` | internal/controller/unionteamserviceaccounts_controller.go:134-163 | every run the protocol permits creates a policy only as the specification entitles a listed account to it, with its grant in the history, the finalizer stored, the service accounts ready and its host listed; that the program makes such runs is the work of `Controller.EnsurePhase` and `PolicyReconciler.EnsureGrant` |
| `Guarantees.ChildInOrder` | internal/controller/unionteamserviceaccounts_controller.go:149-160 | every run creates a child only for a target of a specification whose service accounts are ready, with its host listed |
| `Guarantees.InternalPoliciesMatch` | internal/istio/cleanup.go:143-177 | after a successful pass internal policies of listed accounts, of any resource, have an allowed parent host |
| `Guarantees.PoliciesStand` | internal/istio/reconciler.go:129-159 | with separated names each external host, CloudSQL instance, on-prem host and virtual IP that an account lists has its policy after a pass |
| `Guarantees.NewPoliciesEntitled` | internal/istio/authorizationpolicy.go:41-71 | each policy that a pass adds is one that an account of the resource is entitled to |
| `Guarantees.NothingNeededLost` | internal/istio/cleanup.go:59-310 | no call, of reconciles or deletions, takes away an entry or object that any specification asks for, nor a policy that one of a resource not being deleted asks for |
| `Guarantees.AccountsKept` | internal/serviceaccount/cleanup.go:187-214 | no call deletes a service account or member that a specification asks for, if namespaces differ |
| `Guarantees.FinalizerSafe` | internal/controller/unionteamserviceaccounts_controller.go:115-132 | once every policy of a resource's team belongs to an account it lists, through any failures, retries and edits of everything else the finalizer leaves only when no policy of the team is left |
| `Guarantees.GoneLeavesNone` | internal/controller/unionteamserviceaccounts_controller.go:115-132 | a resource that is gone or lost the finalizer was let go at a moment without a policy of its team |
| `Guarantees.ReconcileGuards` | internal/controller/unionteamserviceaccounts_controller.go:144-169 | the end of every successful reconcile is such a starting point |
| `Guarantees.DeletionExact` | internal/istio/cleanup.go:59-92 | a deletion leaves no policy of the team exactly when each belonged to a listed account |
| `Towards.ReconcileTowards` | internal/controller/unionteamserviceaccounts_controller.go:64-172 | an undisturbed reconcile, also of a resource being deleted, leaves the distance no greater wherever it fails, and succeeds if no call fails |
| `Towards.ReconcileResolves` | internal/istio/virtualservice.go:43-140 | after any history, a reconcile that succeeds undisturbed leaves the traffic of every target its resource lists with a way through, whatever state the other resources are in |
| `Towards.WorkSettles` | internal/controller/unionteamserviceaccounts_controller.go:174-180 | after any history of failures and allowlists edited within separated names, a covering queue that goes through undisturbed, no resource being deleted, ends canonical with every allowlisted target's traffic resolved |
| `Towards.GrantsInOrder` | internal/controller/unionteamserviceaccounts_controller.go:134-163 | in everything the operator did, each policy was created in this order |

## Left out

- Stale informer caches: reads are fresh. The branches that tolerate AlreadyExists and NotFound are modelled, but a stale list is not.
- Gateways with several servers: the cleanup loop over servers is modelled, its specification is for the one server the operator works with.
- Owner references and the garbage collection they cause, other finalizers' effects beyond keeping a deleted resource alive, status, logging, leader election, and the lookup of the resource's kind in the scheme.
- Objects other than the operator's: a policy, rule or service account written by someone else is outside the assumptions.
- The `managed-by` label, export settings, TLS settings of servers, pull secrets, display names, the text of IAM conditions and the BigQuery table's schema: constants without a consequence for the state.
- `serviceaccount.CleanupAllResources`: its comment says the finalizer calls it, but the controller never does.
- The wall clock and the network: a failed call is a nondeterministic outcome, and the rate of retries is not modelled.
- Istio proxy semantics beyond following routes, subsets, gateway entries and service entries by name and port.
- Google service accounts of retained accounts under colliding Google names: `AccountFacts.AccountsExact` says exactly when one is missing after a pass; `Guarantees.AccountsKept` speaks of Kubernetes service accounts and policy members only.
- Convergence of the history: it grows with every reconcile.
