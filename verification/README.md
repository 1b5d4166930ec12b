# UpdateService operator: verification model

The operator keeps, for every UpdateService instance in its namespace, ten
objects, a graph-data pod and a Deployment in their desired state. This project
models its reconcile loop and the computations around it in Dafny and proves what
the loop keeps, what it achieves and where it falls short of its comments.

| file | what it models |
|---|---|
| `Text.dfy`, `Names.dfy` | string operations; derived object names |
| `RouteName.dfy` | the route-name pattern, its matcher and the check on instance names |
| `NoProxy.dfy`, `Egress.dfy` | `NO_PROXY` matching with IPv4 blocks; URL ports, internal hosts, egress ports |
| `Checksum.dfy` | the streaming base64 encoder and the bytes fed to the hash |
| `Toml.dfy` | a reader of configuration files, and what it finds in the rendered one |
| `Objects.dfy`, `Resources.dfy` | the objects of the cluster and the ones rendered for an instance |
| `Merge.dfy` | the Deployment merge: as a function, and as the in-place loops over arrays |
| `Slots.dfy`, `Plan.dfy` | what an undisturbed step, and a whole undisturbed pass, does to the store |
| `Convergence.dfy`, `Isolation.dfy`, `Together.dfy`, `Soundness.dfy`, `Rollout.dfy` | theorems about passes: convergence, independence of instances, worth of the status, rollout |
| `Wiring.dfy`, `Traffic.dfy` | theorems about the objects a pass leaves, read off the store: references, files, ports, copies, images, network policy |
| `Conditions.dfy` | conditions and the working copy of an instance |
| `Server.dfy` | the API server: a versioned store with stale reads, failing calls and interference |
| `Guarantee.dfy` | what every single call of the operator is permitted to be |
| `Trails.dfy` | which calls a request makes, and which failing calls become errors |
| `Steps.dfy`, `Reconciler.dfy` | the reconcile loop, method by method, against all of the above |
| `History.dfy` | theorems over runs of any length |
| `Requests.dfy`, `Witness.dfy` | undisturbed requests in a row, statuses included; methods that handle particular ones |
| `Wakeup.dfy` | event mapping and the controller's queue as a state machine |

**How the loop is proved.** `Server.Server` is an object whose store other parties
edit between any two calls, whose reads may fail or return any earlier version,
whose updates swap only at the version that was read, and whose writes may fail,
or be applied and reported as failed. A *calm* server does none of this, except
that it refuses every write under the keys it has `barred`; a *quiet* one is calm
and bars nothing. The log records every call with the server's reply, and of a
write also what the server held before and after, so the theorems speak about the
store and not about what the operator believed.

Each method of `Reconciler.Reconciler` has three contracts. Whatever the server
does, its calls are *permitted* (`Guarantee.Continues`), given the grant of the
pass: namespace, name, whether the image is pinned, whether the name is refused.
Whatever the server does, its calls and the objects they carry are the ones
called for by the replies so far, from the lookups and what is rendered from them
through every step to the pod and the Deployment, and it returns an error if and
only if a certain call failed (`Trails`: `Compared`, `Bundled`, `Routed`,
`Resolving`, `Merged`, `Scouted`, `Marched`, `Passage`, `Handled`).
And on a quiet server the new store and the calls issued are exactly those of the
plan (`Plan.Reconciled`, `Plan.Issued`), about which the convergence, isolation,
soundness and rollout theorems are then proved. That the planned objects are the
right ones under the right names is stated without the plan's own terms, on the
store that a pass leaves (`Wiring`, `Traffic`), and what texts denote is stated
apart from the functions that read them (`Text.ContainsOccurs`,
`NoProxy.AddressText`, `NoProxy.BlockText`, `Egress.WebPort`, `Toml.ConfigSays`).

**Where the code differs from its comments or documentation.** The model follows
the code.

- An error of one of the ten ensure steps is overwritten by the digest step
  (`controllers/updateservice_controller.go:173-186`), so the pass goes on and can
  publish completion: `Trails.CompletionDecided` says when it does, and in
  `Witness.CompletesWithoutConfig` it does while a ConfigMap is missing.
- A failed update of the disruption budget, the Route or the NetworkPolicy is
  recorded and not returned (597-603, 722-728, 855-861):
  `Reconciler.Reconciler.EnsureRecorded`, `Reconciler.Reconciler.EnsureRoute`.
- Without the graph-data init container nothing is written to the Deployment, no
  error is returned, and completion is published (550-553):
  `Soundness.HollowCompletes`.
- "Unexpected init container in pod will be removed" (541): the trimmed list is
  never stored back, so they stay (`Merge.MergeKeepsForeign`).
- The format constant cites RFC 1123 (36); the pattern asks for a first letter and
  denotes the labels of section 2.3.1 of RFC 1035 (`RouteName.PatternIsLabel`).
- `checksumMap` says that base64 makes ":" a separator
  (`controllers/new.go:1018-1019`); two bytes can be held back across it, so
  different data can feed the same bytes (`Checksum.NotInjective`).
- `docs/external-registry-ca.md:37-38` promises a restart of the Deployment when
  the certificates change; the pod template depends on whether there are any, not
  on their content (`Rollout.CertificatesRoll`). Line 13 of that document names
  the key `cincinnati-registry`; the code looks for `updateservice-registry`.
- Derived names collide: an instance named "cluster" overwrites the cluster's
  bundle (`Isolation.BundleClobbered`, `Isolation.BundleUntouched`), and one named
  after another's policy-engine service comes to rest beside it only with a route
  under its own old name (`Isolation.RoutesContested`, `Together.RestTogether`).
- The bundle's ConfigMap, meant to be created once and filled by others, is looked
  for twice (357, 788). When the first look misses it and the second finds it, what
  others filled in is overwritten by what the earlier lookup gave, which is nothing
  when that missed it too (`Trails.BundleRewritten`, `Witness.InjectionLost`).

## Model

| member | source | states |
|---|---|---|
| `Reconciler.Reconciler.Reconcile` | controllers/updateservice_controller.go:73-210 | Handling a request on any server: a foreign namespace causes no call; else the calls are the ones called for by the replies and permitted for the instance and the image that was read first, and an error is returned exactly when reading the instance, the lookups, the rendering or the last call for the Deployment failed; the requeue delay is given exactly when the instance was read, is not refused and no error is returned. On a calm server that refuses some writes, refused objects stay as they were and, when the Deployment and the status are not among them, a decision to go on ends with completion published whatever else is refused. On a quiet server the creates, updates and deletes are exactly the planned ones, every other object ends up as planned, and the status tells the decision |
| `Reconciler.Reconciler.Run` | controllers/updateservice_controller.go:73-210 | After any sequence of requests, every call opens a pass for one of the requested names or is permitted to the pass under way, whose name, refusal and pinning are those of the instance that was read last |
| `Reconciler.Reconciler.ReconcileInstance` | controllers/updateservice_controller.go:102-209 | The part that follows reading the instance: a refused name and a completed pass end with one attempt to write the status, a pass with an error ends without |
| `Reconciler.Reconciler.Refuse` | controllers/updateservice_controller.go:105-117 | A refused name leads to one attempt to write the status and to no other call; quiet, the status is the refusal alone |
| `Reconciler.Reconciler.Pass` | controllers/updateservice_controller.go:119-203 | An error is returned exactly when the lookups or the rendering failed or the last call for the Deployment did, and a halted pass has written nothing; without error ReconcileCompleted is true; quiet, the certificate condition says whether the referenced certificates were found and the objects are those of the plan |
| `Reconciler.Reconciler.Prepare` | controllers/updateservice_controller.go:126-149 | The three lookups write nothing, stop at a missing pull secret or a failed search, and otherwise, on any server, give what is rendered from the three replies; on a calm server that is what the plan decides on, also when the bundle's template is chosen twice |
| `Reconciler.Reconciler.RunSteps` | controllers/updateservice_controller.go:161-177 | On any server the loop calls the ten ensure functions in order, each making the calls of its step for its own object, and stops at the first that returns an error: all before it returned none, and without an error all ten were called; quiet, it applies all ten slots in order and issues exactly their calls |
| `Reconciler.Reconciler.EnsureAll` | controllers/updateservice_controller.go:158-189 | Whether or not a step stopped the loop, on any server the pod and then the Deployment are looked after, each as the reply calls for, the Deployment with the digest that the pod gave; the error returned is exactly that of the last call for the Deployment; quiet, steps, pod and Deployment are as planned |
| `Reconciler.Reconciler.EnsureStep` | controllers/updateservice_controller.go:161-177 | On any server each ensure function makes the calls of its step, as the replies call for, and returns an error exactly when its last call failed, a failed update of budget, route or policy excepted, or the missing bundle could not be owned; quiet, it brings about its slot; only one of them turns the certificate condition true |
| `Reconciler.Reconciler.CompareAndWrite` | controllers/updateservice_controller.go:760-862 | One get, then a create when nothing was found, an update when the compared part differs, and nothing else; success is reported exactly when the last call succeeded; quiet, exactly one slot's effect |
| `Reconciler.Reconciler.CreateNew` | controllers/updateservice_controller.go:760-862 | One create, permitted on any server, its success as the server reported it; quiet and under a free key it has its slot's effect |
| `Reconciler.Reconciler.UpdateFound` | controllers/updateservice_controller.go:760-862 | One update from the version read, permitted on any server, its success as the server reported it; quiet it has its slot's effect |
| `Reconciler.Reconciler.EnsureRecorded` | controllers/updateservice_controller.go:571-604 | An error is returned exactly when the read or the create failed; a failed update never surfaces |
| `Reconciler.Reconciler.EnsureTrustedClusterCA` | controllers/updateservice_controller.go:351-371 | No call without a bundle to ensure; one look for its ConfigMap and, only when that misses it, the second look with the create or update its reply calls for; an error exactly when the last call failed or the missing ConfigMap could not be owned |
| `Reconciler.Reconciler.EnsureAdditionalTrustedCA` | controllers/updateservice_controller.go:325-349 | The certificate condition becomes true exactly when there are certificates to copy; an error exactly when the last call for the copy failed |
| `Reconciler.Reconciler.FindTrustedCAConfig` | controllers/updateservice_controller.go:247-286 | The image configuration is read and, where it names one, the ConfigMap; an error exactly when a read failed or the named ConfigMap is not there; without usable certificates and without an error the condition is false; calm, the result is what the store holds |
| `Reconciler.Reconciler.FindTrustedClusterCA` | controllers/updateservice_controller.go:288-305 | On any server a failed read, a missing, an unusable and a usable bundle are told apart exactly as the reply says |
| `Reconciler.Reconciler.FindExistingRoute` | controllers/updateservice_controller.go:731-758 | The route under its old name when there is one, else under the new |
| `Reconciler.Reconciler.UpdateRoute` | controllers/updateservice_controller.go:703-728 | Rewrites the Route from the version read with its TLS part as found; issues an update if and only if the rest differs |
| `Reconciler.Reconciler.EnsureRoute` | controllers/updateservice_controller.go:684-729 | On any server the route is looked for under its old name, and under the new one only after a miss; found it is updated, missing created under the new name, and after a failed read neither; an error exactly when the last call failed and was no update; quiet, the route in use is created or brought in line |
| `Reconciler.Reconciler.EnsureGraphDataSHA` | controllers/updateservice_controller.go:373-435 | On any server: no call and no digest for an image with "@sha256" somewhere in it; for any other the pod is read, created only when read as missing and deleted only when read as finished, and the digest returned is the first image of the unfinished pod that was read; an error exactly when the last call failed; quiet, the pod is created, deleted or left as planned |
| `Plan.PinnedImages` | controllers/updateservice_controller.go:375-377 | An image is pinned if and only if "@sha256" stands somewhere in it |
| `Plan.DigestsAndTags` | controllers/updateservice_controller.go:375-377 | Every repository with "@sha256:" and anything behind it is pinned, and no image without "@" is |
| `Text.ContainsOccurs` | controllers/updateservice_controller.go:375 | The recursive search finds a text exactly when it stands at some position |
| `Reconciler.Reconciler.UpdateDeployment` | controllers/updateservice_controller.go:460-569 | Issues an update exactly when the in-place merge differs from what was found and the graph-data init container is there, and returns an error exactly when that update failed; otherwise no call and no error |
| `Reconciler.Reconciler.EnsureDeployment` | controllers/updateservice_controller.go:437-569 | Reads, then creates or merges as the reply calls for; an error exactly when the last call failed; the digest annotation is the digest of this pass or stays |
| `Trails.CompletionDecided` | controllers/updateservice_controller.go:158-209 | On any server, for an instance that was read and is not refused: completion is published, and no error returned, if and only if the lookups gave what was needed and the last call for the Deployment did not fail; neither the ten steps nor the pod have any say |
| `Trails.BundleRewritten` | controllers/updateservice_controller.go:351-371 | On any server, the bundle's step overwrites the ConfigMap if and only if the first look misses it, the second finds it, and it differs from the template |
| `Witness.InjectionLost` | controllers/updateservice_controller.go:351-371 | A concrete instance: calls of that step that replace an injected bundle by an empty one, without an error |
| `Witness.CompletesWithoutConfig` | controllers/updateservice_controller.go:173-203 | A server that refuses only writes of one ConfigMap: the request is handled from its first call to its last without an error, the create of the ConfigMap is among its calls and fails, completion is published, and the ConfigMap is missing |
| `Conditions.Instance.Set` | controllers/updateservice_controller.go:212-232 | Setting a condition keeps the others, and keeps one per type |
| `Server.Server.Update` | controllers/updateservice_controller.go:722 | The server's update swaps only at the version read: what it replaces is the object that was read, or nothing changes |
| `Server.Server.Get` | controllers/updateservice_controller.go:91-100 | A read fails, finds nothing, or returns a version the key once had |
| `Guarantee.OverwritePermitted` | controllers/updateservice_controller.go:710-862 | An update of the compared part keeps metadata, a service's address, a route's TLS and ingress |
| `Guarantee.MergePermitted` | controllers/updateservice_controller.go:463-566 | A Deployment update keeps everything foreign and changes the digest annotation only to the digest of the pass |
| `History.RoutesKeepTLS` | controllers/updateservice_controller.go:684-729 | Over any run, whatever users edit in between: no write changes the TLS part of a Route that is there, and none removes the Route |
| `History.TLSAsGiven` | controllers/updateservice_controller.go:710-722 | Over any run: a Route's TLS part is the one its users last gave it, or the one it was created with |
| `History.BundleKept` | controllers/updateservice_controller.go:351-371 | Over any run for instances not named "cluster", whatever data is injected in between: no write changes the bundle's ConfigMap once it is there, unless the two reads before the write disagree on its existence |
| `History.BundleAsGiven` | controllers/updateservice_controller.go:351-371 | Over any such run: the bundle's ConfigMap is as the platform last made it, or as it was created |
| `History.StatusesPublishable` | controllers/updateservice_controller.go:102-221 | Over any run: every status that reaches the server is ReconcileError alone, or completed without it and with one condition per type, and nothing but the status changes |
| `History.RefusedOnlyReport` | controllers/updateservice_controller.go:105-117 | Over any run: apart from statuses, everything is written on behalf of an instance with an acceptable name |
| `History.PinnedLeavesPod` | controllers/updateservice_controller.go:373-435 | Over any run: the pod is read, created or deleted only on behalf of an instance whose image was not pinned when the instance was last read |
| `History.WritesFollowReads` | controllers/updateservice_controller.go:373-862 | Over any run: a create directly follows a read that found the object missing, an update one that found it and, if it takes effect, found just what it replaces, and only the pod is deleted, directly after it was read as finished |
| `History.MetadataKept` | controllers/updateservice_controller.go:437-862 | Over any run: no write changes the metadata of what is there, and only the pod is ever removed |
| `History.AddressesKept` | controllers/updateservice_controller.go:760-779 | Over any run: no write changes the address of a Service that is there, or removes it |
| `History.AddressAsGiven` | controllers/updateservice_controller.go:760-779 | Over any run: a Service has the address it was last given by others, or with which it was created |
| `History.ForeignPartsKept` | controllers/updateservice_controller.go:460-566 | Over any run: every write that changes a Deployment keeps its foreign labels, annotations, amounts, containers and init containers |
| `History.DigestOrigin` | controllers/updateservice_controller.go:373-435 | Over any run in which nobody else writes the annotation: it is the initial one, untouched by any write, or the non-empty digest last read from the pod before the last write that changed it |
| `History.DigestHistory` | controllers/updateservice_controller.go:427-485 | Over any sequence of undisturbed passes of any instances while the pod comes and goes: the annotation is the last digest a pass of its instance could read, or the initial one |
| `Convergence.SecondPassQuiet` | controllers/updateservice_controller.go:158-189 | For whatever objects an instance should have: after one undisturbed pass over any store a second one issues nothing if and only if the image is pinned, or the pod is neither finished nor ahead of a Deployment just created |
| `Convergence.QuietPassIdle` | controllers/updateservice_controller.go:158-189 | A pass that issues nothing changes nothing |
| `Convergence.PassInLine` | controllers/updateservice_controller.go:158-189 | For whatever objects: after one undisturbed pass over any store the compared part of all step objects is in place, and the Deployment's if and only if there was none or it had its three containers |
| `Convergence.Converges` | controllers/updateservice_controller.go:158-189 | After the plan of one pass, the plan of a second decides on the same objects, issues no create, update or delete under that same condition, and only then, and changes nothing |
| `Requests.SecondRequestQuiet` | controllers/updateservice_controller.go:73-210 | The same of two requests, the status write of the first included: the second issues no create, update or delete if and only if the tag is settled |
| `Requests.LeftAside` | controllers/updateservice_controller.go:102-207 | What a request leaves differs from its plan in statuses only |
| `Requests.PlanAside` | controllers/updateservice_controller.go:119-203 | Stores that differ in statuses only lead to the same decision and the same calls, and to stores that differ in statuses only |
| `Witness.Twice` | controllers/updateservice_controller.go:73-210 | Two requests are handled on a quiet server, one after the other: the second adds nothing to the log's creates, updates and deletes if and only if the tag is settled |
| `Convergence.BringsInLine` | controllers/updateservice_controller.go:158-189 | The same for the objects the operator renders from what it finds |
| `Convergence.PodsSelected` | controllers/new.go:144-245 | Created or merged onto whatever was found, the pods carry what the Deployment, both services, the budget and the policy select by |
| `Convergence.RenderBundle` | controllers/new.go:677-749 | Everything rendered but the bundle itself is the same whichever bundle was found; it is asked for exactly when a proxy variable is set |
| `Convergence.AddressKept` | controllers/updateservice_controller.go:771-779 | An undisturbed step keeps metadata, an allocated service address and a route's TLS |
| `Soundness.StatusSound` | controllers/updateservice_controller.go:151-207 | After an undisturbed pass the status reports completion, reports certificates found if and only if the referenced ConfigMap holds the key, and all objects are in line, the Deployment if and only if it was complete or absent |
| `Soundness.HollowCompletes` | controllers/updateservice_controller.go:550-553 | A concrete store in which completion is published while the Deployment stays out of line |
| `Wiring.ReferencesResolve` | controllers/new.go:514-692 | After an undisturbed pass, read off the store, where the Deployment was missing or had its init container (so in all rows on pods): every variable of the managed containers taken from a ConfigMap names one that has the key, and every volume names an object that is there with every key it picks |
| `Wiring.ConfigurationWritten` | controllers/new.go:537-569 | For a pull spec registry/repository, both without quotes and line breaks, the first without a slash: name-config holds "gb.toml", in which a reader finds that registry and that repository |
| `Wiring.FilesResolve` | controllers/new.go:571-692 | The graph-builder finds that file at the path it is told; the credentials path in it leads to the source pull secret's data, and its data directory is one scratch volume shared with the init container |
| `Toml.ConfigSays` | controllers/new.go:49-72 | What a reader of headings and "key = value" lines finds in the rendered file: registry, repository, ports and paths |
| `Traffic.TrafficResolves` | controllers/new.go:165-276 | The route in use targets a named port of the Service it points at; both Services select the pods, and every target is a port of the container behind it |
| `Traffic.UpstreamResolves` | controllers/new.go:514-535 | The URL the policy engine asks has the port that the graph-builder's file serves on and its container listens on |
| `Traffic.CopiesMade` | controllers/new.go:694-724 | The pull secret copy holds the data of openshift-config/pull-secret, and the certificates' copy that of the ConfigMap the image configuration names |
| `Traffic.TagPulled` | controllers/updateservice_controller.go:379-403 | For a tag whose pod is missing, the pod is there with the instance's image to pull |
| `Traffic.InjectionAsked` | controllers/new.go:726-749 | A bundle that had to be created is empty and labelled for injection |
| `Traffic.BudgetAllows` | controllers/names.go:71-79 | The budget keeps fewer pods than there are, and one of several |
| `Traffic.PodsRun` | controllers/new.go:571-624 | Replicas, images and the proxy variables of the pods are those of the instance and of the operator's settings |
| `Traffic.PolicyAdmits` | controllers/new.go:425-508 | The network policy selects the pods, lets in the router to a port every policy engine names, and lets out to the ports the registry is reached on, in its namespace exactly when it is a service there, and to DNS |
| `Traffic.PeersExact` | controllers/new.go:436-449 | The registry's rule has as its only peer a namespace if and only if the registry is a service in it, and no peer if and only if it is none |
| `Isolation.FootprintsMeet` | controllers/names.go:31-69 | Two instances can write a common object, besides the pod and the bundle, if and only if they are the same or one is named after the other's policy-engine service |
| `Isolation.DecisionUnmoved` | controllers/updateservice_controller.go:119-149 | A pass of one instance leaves the decision of any other as it was |
| `Isolation.PassesCommute` | controllers/updateservice_controller.go:158-189 | For whatever objects: the passes of two unrelated instances with pinned images give the same under every key but the bundle's, in either order |
| `Isolation.OrderImmaterial` | controllers/updateservice_controller.go:73-210 | The plans of unrelated instances with pinned images, neither named "cluster", give the same objects in either order; only the owner of a newly created bundle depends on it |
| `Requests.OrderOfRequests` | controllers/updateservice_controller.go:73-210 | The same of requests, status writes included: both orders leave the same under every key but those of instances, the owner of a newly created bundle excepted |
| `Witness.BothOrders` | controllers/updateservice_controller.go:73-210 | On two quiet servers that start alike, requests for a and then b are handled on the one and for b and then a on the other, and both leave the same |
| `Isolation.BundleLater` | controllers/updateservice_controller.go:351-371 | What a pass makes of the bundle's ConfigMap, unless the instance is named "cluster" and there are certificates: created when a proxy is set and it is missing, else untouched |
| `Isolation.BundleUntouched` | controllers/updateservice_controller.go:325-371 | A pass leaves a bundle that is there as it is, except exactly when its instance is named "cluster", gets as far as the steps, and there are certificates that are not already in its place |
| `Isolation.BundleClobbered` | controllers/names.go:22-65 | For the instance named "cluster" the bundle is replaced by the registry's certificates |
| `Isolation.RoutesContested` | controllers/names.go:55-61 | An instance, and one that is named after its policy-engine service and has no route under its own old name, are never both at rest, in any store |
| `Together.RestTogether` | controllers/updateservice_controller.go:158-189 | After an undisturbed pass of each of any two instances over any store, the next passes of both issue no create, update or delete if and only if the graph-data tags are settled and, should one be named after the other's policy-engine service, it has a route under its own old name |
| `Together.PairRests` | controllers/updateservice_controller.go:158-189 | The same for whatever objects the two should have, where the routes are not contested |
| `Requests.RestOfRequests` | controllers/updateservice_controller.go:73-210 | The same of two requests, status writes included |
| `Together.MeetAt` | controllers/names.go:22-69 | Two different instances meet only at the bundle, the pod, and the new route of one that is named after the other's policy-engine service |
| `Isolation.RouteTarget` | controllers/updateservice_controller.go:684-758 | An instance at rest has its route pointing at its own service |
| `Plan.PassFrame` | controllers/updateservice_controller.go:158-189 | A pass writes nothing outside its footprint |
| `Plan.StepsCompatible` | controllers/updateservice_controller.go:161-172 | No two steps of one instance undo each other |
| `Slots.ApplySettles` | controllers/updateservice_controller.go:161-177 | Compatible steps are all settled after one pass |
| `Slots.StableIsQuiet` | controllers/updateservice_controller.go:760-862 | A sequence of steps issues nothing if and only if all are settled |
| `Merge.MergeInPlace` | controllers/updateservice_controller.go:460-557 | The in-place loops over a copy equal the merge function, in whatever order maps are iterated, and leave the original untouched |
| `Merge.MergeContainers` | controllers/updateservice_controller.go:488-530 | The container loop equals its specification on the whole array |
| `Merge.MergeInitContainers` | controllers/updateservice_controller.go:532-553 | The init-container loop equals its specification and says whether graph-data was there |
| `Merge.SetAll` | controllers/updateservice_controller.go:472-480 | Writing every wanted pair in any order gives the same labels |
| `Merge.SetAmounts` | controllers/updateservice_controller.go:507-526 | The same for amounts, with numerically equal ones kept |
| `Merge.MergeFixed` | controllers/updateservice_controller.go:559 | The merge leaves a Deployment as it is if and only if every compared part has its wanted value |
| `Merge.MergeIdempotent` | controllers/updateservice_controller.go:463-548 | Merging twice is merging once |
| `Merge.MergeKeepsForeign` | controllers/updateservice_controller.go:463-557 | Foreign labels, annotations, amounts, containers and init containers survive, order and count included |
| `Merge.AmountsKeepForm` | controllers/updateservice_controller.go:512-526 | An amount is rewritten only if its number differs |
| `Merge.MergeSelectable` | controllers/updateservice_controller.go:463-474 | Merged pods satisfy the merged selector |
| `Resources.NewKubeResources` | controllers/new.go:104-142 | Filling in the fields one after the other gives the rendered objects, or nothing for a pull spec without a slash |
| `Resources.NamespaceRule` | controllers/new.go:425-449 | A namespace peer comes with exactly one port, the registry's own |
| `Convergence.PodMountsDeclared` | controllers/new.go:571-692 | In a Deployment as created, and as merged onto whatever was found, every mount of every container the operator manages names exactly one volume declared beside it, whichever certificates are present |
| `Checksum.ChecksumMap` | controllers/new.go:1003-1033 | The bytes fed to the hash depend only on the map, not on its iteration order |
| `Checksum.Encoder.Write` | controllers/new.go:1010-1033 | The streaming encoder emits all whole groups and holds back the rest, at most two bytes |
| `Checksum.FeedStripped` | controllers/new.go:1013-1030 | Without ":" the stream is the base64 encoding of all fields run together |
| `Checksum.FeedMarks` | controllers/new.go:1024 | Each ":" stands after as many groups as a third of the bytes so far |
| `Checksum.DecodeBase64` | controllers/new.go:1011 | Decoding inverts encoding (section 4 of RFC 4648) |
| `Checksum.StreamContent` | controllers/new.go:1003-1033 | Two maps feed the same bytes if and only if their sorted fields run together to the same text and end after the same numbers of whole groups; decoding recovers that text |
| `Checksum.NotInjective` | controllers/new.go:1010-1030 | Two different maps that feed the same bytes |
| `Checksum.ListsUnique` | controllers/new.go:1004-1008 | The sorted list of keys is unique |
| `Rollout.HashDetermines` | controllers/new.go:537-569 | For pull specs of bytes with a slash and no quote, the bytes behind the annotation are equal if and only if the pull specs are |
| `Rollout.AnnotationFollows` | controllers/updateservice_controller.go:478-480 | On the create and on the merge path the annotation is the hash of the configuration rendered, so that a different hash changes the Deployment |
| `Rollout.ChangeRollsOut` | controllers/new.go:597-607 | Between two generations of an instance the annotation is the same if and only if the pull spec is; a changed one changes the Deployment |
| `Rollout.CertificatesRoll` | controllers/new.go:571-692 | Between two states of the certificates the rendered Deployment is the same if and only if they are there in both or in neither |
| `Rollout.CertificatesMerge` | controllers/new.go:571-692 | Merged onto whatever was found, two states of the certificates give the same Deployment if and only if they are there in both or in neither |
| `Wakeup.Map` | controllers/mapper.go:23-50 | Requests arise only for the image configuration and the ConfigMap it names, and then for every listed instance |
| `Wakeup.RequeueUpdateServices` | controllers/mapper.go:52-68 | One request per listed instance, none when listing fails |
| `Wakeup.NoLostWakeup` | controllers/mapper.go:23-68 | In every run in which Map's reads succeed, each instance with an acceptable name will be looked at again, or is being looked at with what counts still to be read, or last found what would be found now; the search itself is not atomic |
| `Wakeup.RestIsUpToDate` | controllers/mapper.go:23-68 | From start-up on, whenever everything is at rest an instance has seen the certificates there are if and only if its name is acceptable |
| `Wakeup.RefusedSeesNothing` | controllers/updateservice_controller.go:105-117 | Over any run, an instance with a refused name never gets to see certificates |
| `Wakeup.RefusedRests` | controllers/updateservice_controller.go:105-117 | A run of three steps after which everything is at rest and an instance with a refused name is not up to date |
| `Wakeup.FailingMapLoses` | controllers/mapper.go:31-37 | If Map fails on the referenced ConfigMap's change, a rest with everything up to date leads to a rest with a change unseen |
| `RouteName.PatternIsLabel` | controllers/updateservice_controller.go:36-41 | The pattern matches exactly the strings that start with a letter, end in a letter or digit and have only letters, digits and hyphens |
| `RouteName.MatchLabel` | controllers/updateservice_controller.go:671 | A matcher reading one character at a time accepts exactly what the pattern matches |
| `RouteName.ValidateRouteName` | controllers/updateservice_controller.go:662-682 | Each reason is given exactly when it applies; none exactly for acceptable names |
| `RouteName.AcceptedNames` | controllers/updateservice_controller.go:662-682 | Acceptance bounds the two names to 56 bytes together and forces a non-empty instance name |
| `RouteName.NamesAccepted` | controllers/updateservice_controller.go:662-682 | Conversely, names of that shape are accepted |
| `NoProxy.NoProxy` | controllers/new.go:347-376 | The loop returns whether some comma-separated, trimmed entry matches the host without its port; what that means for written entries is said by the next rows |
| `NoProxy.AddressText` | controllers/new.go:369 | A text is read as an address if and only if it is that address in dotted decimal form |
| `NoProxy.BlockText` | controllers/new.go:370 | A text is read as a block if and only if it is an address in that form, a slash and a prefix length up to 32; the block is the address masked |
| `NoProxy.BlockEntry` | controllers/new.go:369-373 | A list that is one block matches a registry that is an address, with or without a port, if and only if the first n bits agree |
| `NoProxy.OctetBlocks` | controllers/new.go:369-373 | For 8, 16, 24 and 32 bits: if and only if the first 1, 2, 3 or 4 octets are equal |
| `NoProxy.DomainEntry` | controllers/new.go:365-368 | A list that is one domain with a leading dot matches exactly the hosts below it |
| `NoProxy.OneEntry` | controllers/new.go:356-358 | White space around an entry plays no part |
| `NoProxy.ContainsIsPrefix` | controllers/new.go:369-373 | An IPv4 block contains an address if and only if the first n bits agree (section 3.1 of RFC 4632) |
| `NoProxy.JoinedLists` | controllers/new.go:347-376 | When joining two lists means either of them, and when not |
| `NoProxy.ListOrder` | controllers/new.go:357 | The order of two joined lists does not matter |
| `Egress.EgressPorts` | controllers/new.go:309-345 | Unless the registry is reached directly or neither proxy variable has a port, the ports are exactly those of HTTP_PROXY and HTTPS_PROXY, in that order and each once; otherwise the registry's own, or 443 |
| `Egress.PortList.Add` | controllers/new.go:312-325 | Adds the port of a URL unless it is there, or 443 where asked to on an error |
| `Egress.PortsShape` | controllers/new.go:309-345 | One or two distinct ports between 1 and 65535; exactly the registry's own one for an internal or bypassed registry |
| `Egress.RegistryPort` | controllers/new.go:378-401 | A registry with a port in range yields that port, one out of range an error, one without 443 |
| `Egress.WebPort` | controllers/new.go:378-401 | The same of http and https URLs, where the scheme without a port yields 80 or 443 |
| `Egress.WebPortPath` | controllers/new.go:378-401 | A path behind the port plays no part |
| `Egress.NamespaceIff` | controllers/new.go:403-423 | A namespace is found exactly for hosts that are a prefix, a dot, a dot-free namespace and one of the two suffixes |
| `Egress.NamespaceRoundTrip` | controllers/new.go:403-423 | Building a service host, in both forms, with and without a port, and asking for its namespace are inverse |

## Left out

- The manager's set-up, watches on owned objects, metrics, logging and the timer: in `Wakeup` a request may be made at any time, and the delay is the number returned.
- API-server defaulting other than the address of a new service: a quiet server stores what it is given.
- SHA-256: a hash is represented by the bytes fed to it, and so is the digest annotation by the pod's ImageID.
- `text/template` in general: the configuration is rendered as fixed lines around the registry and the repository.
- `url.Parse` in full: `Egress.ParseURL` reads scheme, optional user information, host, port, path and fragment, with their percent-escapes checked and not decoded; IPv6 literals with their zones and the redaction of errors are not modelled.
- IPv6 addresses and blocks, and IPv4-mapped ones, in `NO_PROXY`; trimming of white space outside ASCII.
- Description annotations, probe timings, container arguments that play no part, the last-refresh timestamp of the pod, condition messages and timestamps.
- The URI a route's ingress status exposes is a parameter of the reconciler.
- Nil and empty maps or lists are identified; an amount is its number of thousandths and its written form; an owner is its name, and is recorded only for instances.
- Strings are sequences of characters standing for bytes.
- Convergence, soundness and isolation take the operator's namespace to be other than openshift-config, as the role markers at `controllers/updateservice_controller.go:63-71` bind its writes to openshift-update-service.
- Reconciler.Reconciler.EnsureTrustedClusterCA: an object that was found once and is created again after it vanished would carry its old resourceVersion, which a server refuses; the model lets such a create succeed.
- Witness.InjectionLost: a list of calls and replies as a server may give them, since no server of the model can be told when others act.
- Isolation.OrderImmaterial: speaks of undisturbed passes only, since with interference the order of edits counts.
- Wakeup.NoLostWakeup: Map's reads see the current store; the staleness of the manager's cache there is not modelled.
- Finalizers and garbage collection of owned objects: deletion of an instance is somebody else's edit.
