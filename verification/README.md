# ec2-operator reconciliation core, in Dafny

This project models the reconciliation logic of a Kubernetes operator that
manages two kinds of AWS EC2 resources: `Instance` records, which launch and
track a virtual machine, and `ImportKeyPair` records, which import an SSH
public key. Each controller's `Reconcile` is a pure function. It takes the
record the store returned, plus the answers of the credential Secret lookup,
of every EC2 request and of the store `Update`. It returns three things:

- the `(ctrl.Result, error)` pair Go returns;
- the trace of EC2 requests it sent;
- the record as persisted by a successful Update (possibly identical to the one read), or `None` when no Update succeeded.

Modules:

- `Wrappers`, `Api`, `Cloud`, `Runtime`: the shared datatypes. `Api` mirrors the
  record fields the logic reads. `Cloud` holds EC2 requests and answers.
  `Runtime` holds store answers, errors and `ctrl.Result`.
- `Ec2` (`pkg/ec2/ec2.go`): credential extraction, client construction, and one
  provisioning or teardown step per EC2 request. It also defines the status
  constants and the provisioning order `"" < waitfortag < waitforpublicip < provisioned`.
- `Finalizers`: `containsString`, `removeString` and the add-if-absent step.
- `Secrets`: `secretExists`, which is identical in both controllers.
- `InstanceController`, `InstanceLifecycle` (`pkg/controllers/instance_controller.go`):
  dispatch on status, the finalizer protocol, the requeue decision, and
  properties over any number of successive reconciles.
- `KeyPairController` (`pkg/controllers/importkeypair_controller.go`).

Status is a plain string, so an unknown value (for example `"Provisioned"`)
reaches the `default` branch of the dispatch, just as it does in the source.

Behaviour the model keeps as the code has it, although a reader might expect otherwise:

- A Secret that cannot be resolved yields `RequeueAfter(30)` together with a
  non-nil error. Go returns both values; the model keeps both.
- The key pair deletion branch calls `DeleteKeyPair` whether or not the
  finalizer is present.
- The Instance deletion branch updates the record even when the finalizer is
  absent. It also returns `Requeue` whenever the status is not `provisioned`,
  including after the finalizer has been removed.
- The import request is named after the record's object name, not after
  `Spec.KeyName`.
- An empty public key is an ordinary returned error. Nothing marks it as permanent.
- The `"error"` status from a failed import is never persisted, because the
  controller returns before its `Update`.

## Model

| member | source | states |
|---|---|---|
| Ec2.CreateCredentials | pkg/ec2/ec2.go:95-107 | succeeds iff both `aws_access_key` and `aws_secret_key` are present as keys (empty values are accepted); a missing access key is reported first; the credentials carry exactly the two stored values |
| Ec2.NewAWSClient | pkg/ec2/ec2.go:28-46 | fails exactly when credential extraction fails, with the same error; otherwise the client is bound to the requested region |
| Ec2.SpecTags | pkg/ec2/ec2.go:131-135 | one EC2 tag per spec tag, same name and value, same order |
| Ec2.BuildTags | pkg/ec2/ec2.go:131-137 | the spec tags in spec order followed by one `Name=<object name>` tag, so n+1 tags in all (the key pair path at lines 163-169 builds the same list) |
| Ec2.BuildTagsOneNameTag | pkg/ec2/ec2.go:136-137 | when no spec tag uses the key `Name`, the appended tag is the only `Name` tag |
| Ec2.LaunchRequest | pkg/ec2/ec2.go:69-71 | the RunInstances request names a key pair iff `Spec.KeyName` is non-empty, and then names exactly that key |
| Ec2.CreateInstance | pkg/ec2/ec2.go:49-83 | from `""`: sends one RunInstances; on success the status is `waitfortag` with the launched id and private IP and an empty public IP; a launch error is returned unchanged; a provisioned instance with an id is returned as it is, with no request (corrected guard; see ## Findings) |
| Ec2.CreateInstanceAsWritten | pkg/ec2/ec2.go:51-82 | the launch step as written: it dereferences the nil reservation exactly when the status is neither `""` nor the literal `"Provisioned"` with an id |
| Ec2.CreateInstanceAgreesWhenUnsubmitted | pkg/ec2/ec2.go:56-82 | on status `""`, the only status the controller launches from, the written and corrected launch steps agree |
| Ec2.CreateInstanceProvisionedGuardMissed | pkg/ec2/ec2.go:52-54 | a `provisioned` instance with id `i-0abc` misses the written guard and reaches the nil reservation; the corrected step returns it unchanged |
| Ec2.DeleteInstance | pkg/ec2/ec2.go:86-93 | terminates exactly `Status.InstanceID`; succeeds iff the terminate request succeeds, and otherwise passes its error through |
| Ec2.FetchPublicIP | pkg/ec2/ec2.go:109-127 | describes `Status.InstanceID`; a reported IP sets status `provisioned` and records that IP; no IP returns the input status unchanged; a describe error is propagated; the id and private IP are kept |
| Ec2.UpdateTags | pkg/ec2/ec2.go:129-155 | tags `Status.InstanceID` with the built tag list; on success the status is `waitforpublicip` iff `Spec.PublicIPAddress`, else `provisioned`, with the id and both IPs unchanged; a tag error is propagated |
| Ec2.ImportKeyPair | pkg/ec2/ec2.go:157-190 | an empty public key errors with no request; otherwise one import named after the object, carrying the key and the built tags; success gives `provisioned` with the returned id; failure gives status `"error"` with an empty key-pair id and the provider error |
| Ec2.DeleteKeyPair | pkg/ec2/ec2.go:192-198 | deletes exactly `Status.KeyPairID`; succeeds iff the delete request succeeds |
| Ec2.AdvancesTransitive | pkg/controllers/instance_controller.go:126-130 | the provisioning order `"" < waitfortag < waitforpublicip < provisioned`, with staying put allowed, is transitive |
| Finalizers.ContainsString | pkg/controllers/instance_controller.go:145-153 | true exactly when the string occurs in the list |
| Finalizers.RemoveString | pkg/controllers/instance_controller.go:155-164 | every occurrence of the string is dropped and every other entry is kept with its multiplicity |
| Finalizers.RemoveStringDistributes | pkg/controllers/instance_controller.go:156-164 | removal acts entry by entry over concatenation, so the surviving entries keep their order |
| Finalizers.RemoveStringAbsent | pkg/controllers/instance_controller.go:156-164 | removing a string that is not in the list returns the list unchanged |
| Finalizers.RemoveStringIdempotent | pkg/controllers/instance_controller.go:156-164 | removing twice is the same as removing once |
| Finalizers.AddFinalizer | pkg/controllers/instance_controller.go:102-104 | afterwards the finalizer is present; the old list is a prefix of the new one; at most one entry is appended, and only when the finalizer was absent; no other entry's count changes |
| Finalizers.AddFinalizerOnce | pkg/controllers/instance_controller.go:102-104 | a list holding the finalizer at most once holds it exactly once after adding (never duplicated) |
| Finalizers.AddThenRemove | pkg/controllers/instance_controller.go:120 | removing the finalizer after adding it gives the same list as removing it from the original |
| Secrets.SecretExists | pkg/controllers/instance_controller.go:166-180 | succeeds iff the Secret name is non-empty and the store returns the Secret; an empty name fails without consulting the store; the key pair copy at pkg/controllers/importkeypair_controller.go:120-134 is identical |
| InstanceController.TableAdvances | pkg/controllers/instance_controller.go:82-94 | every move of the provisioning transition table keeps the provisioning order |
| InstanceController.RequeueDecision | pkg/controllers/instance_controller.go:132-136 | immediate requeue iff the status is not `provisioned`, never with an error |
| InstanceController.AfterStep | pkg/controllers/instance_controller.go:96-109 | a step error is returned with nothing stored; otherwise the new status is written together with the finalizer (added if absent); a failed Update stores nothing and returns its error |
| InstanceController.Provision | pkg/controllers/instance_controller.go:79-109 | `""` sends only the launch, `waitfortag` only the tag request, `waitforpublicip` only the describe; any other status returns done with no request and no store write; a step error stores nothing and returns that step's own provider error unchanged; a failed Update stores nothing and returns its error; a stored record differs from the input only in its status, which is a move of the transition table, and in the finalizer, added if absent; the stored status is exactly the step's: after a launch, `waitfortag` with the returned instance id and private IP and no public IP; after tagging, the next status with the id and IPs kept; after a describe, `provisioned` with the reported public IP, or the status unchanged when none is reported; the reply requeues iff the stored status is not `provisioned` |
| InstanceController.Finalize | pkg/controllers/instance_controller.go:110-124 | with the finalizer held, terminate of the recorded id is sent first, and its failure returns the error with the finalizer kept; a failed Update stores nothing and returns its error; otherwise the stored record is the input with the finalizer removed and nothing else changed (name, deletion marker, spec and status kept); the reply requeues iff the status is not `provisioned` |
| InstanceController.Reconcile | pkg/controllers/instance_controller.go:49-137 | a missing record is done with no error; a failed record fetch returns its error; an unresolved Secret returns `RequeueAfter(30)` with its error and no request; a bad credential payload returns done with the client's own error and no request; no request or write happens without a resolved Secret and client; then deletion or provisioning; an error-free reply requeues iff a non-`provisioned` record was stored |
| InstanceLifecycle.StepAdvances | pkg/controllers/instance_controller.go:82-124 | one reconcile never moves the stored status backwards |
| InstanceLifecycle.DriveNeverRegresses | pkg/controllers/instance_controller.go:79-124 | across any sequence of reconciles the status never regresses in the provisioning order |
| InstanceLifecycle.UndispatchedIsNoOp | pkg/controllers/instance_controller.go:92-93 | a live record whose status is none of `""`, `waitfortag`, `waitforpublicip` (e.g. `provisioned`) gets no request and no write, and a done reply once a client is built |
| InstanceLifecycle.ProvisionedStaysPut | pkg/controllers/instance_controller.go:82-94 | any number of reconciles of a live `provisioned` record leaves it unchanged and sends no EC2 request at all |
| InstanceLifecycle.FinalizerDroppedOnlyAfterTerminate | pkg/controllers/instance_controller.go:111-123 | the finalizer leaves the store only in a deletion reconcile whose terminate request for the recorded id succeeded |
| InstanceLifecycle.LaunchedIsTerminated | pkg/controllers/instance_controller.go:83-123 | after a launch reconcile that persisted its result, a deletion reconcile terminates exactly the instance id that the launch returned |
| InstanceLifecycle.FailedTeardownKeepsFinalizer | pkg/controllers/instance_controller.go:111-117 | while every terminate fails, a record being deleted keeps its finalizer and is never changed, and every request sent is a terminate of the recorded instance |
| InstanceLifecycle.ScenarioWithoutPublicIP | pkg/controllers/instance_controller.go:82-136 | with no public IP requested: launch to `waitfortag` (requeue), then tag straight to `provisioned` (done), then a no-op |
| InstanceLifecycle.ScenarioWithPublicIP | pkg/controllers/instance_controller.go:82-136 | with a public IP requested: tagging leads to `waitforpublicip`; a describe without an IP requeues and stores the same record; one with an IP stores `provisioned` with that IP and is done |
| KeyPairController.Provision | pkg/controllers/importkeypair_controller.go:78-98 | import is attempted only from status `""`, and any other status is done with no request; an empty key errors with no request; an import failure returns the provider's own error and persists nothing; a failed Update stores nothing and returns its error; on success the record is stored with only the finalizer (added if absent) and the status `(provisioned, id)` changed, in one write, and the reply is done with no error; an error-free reply is done |
| KeyPairController.Finalize | pkg/controllers/importkeypair_controller.go:99-109 | always sends delete for the recorded key pair id, whatever the finalizers; a failed delete or a failed Update stores nothing and returns its error; otherwise the stored record is the input with the finalizer removed and nothing else changed, and the reply is done with no error |
| KeyPairController.Reconcile | pkg/controllers/importkeypair_controller.go:49-112 | the same early exits as the Instance reconciler (a bad credential payload returns the client's own error), with no import attempted without a resolved Secret and client; then deletion or provisioning; successful paths never requeue |
| KeyPairController.SubmittedStaysPut | pkg/controllers/importkeypair_controller.go:78-86 | any number of reconciles of a live key pair with a non-empty status sends nothing and changes nothing |
| KeyPairController.ImportHappensOnce | pkg/controllers/importkeypair_controller.go:78-98 | after a persisted import, later live reconciles never import again |
| KeyPairController.EmptyPublicKeyNeverSent | pkg/ec2/ec2.go:157-160 | a live key pair with an empty public key never reaches EC2 and is never written |
| KeyPairController.FinalizerDroppedOnlyAfterDelete | pkg/controllers/importkeypair_controller.go:99-108 | the finalizer leaves the store only in a deletion reconcile whose delete request succeeded |
| KeyPairController.ScenarioImportThenDelete | pkg/controllers/importkeypair_controller.go:78-111 | one reconcile imports and stores the id, the status and the finalizer; a later deletion reconcile deletes that id and removes the finalizer |

## Left out

- EC2 network calls (RunInstances, DescribeInstances, CreateTags, TerminateInstances, ImportKeyPair, DeleteKeyPair): each is an answer parameter of the model.
- AWS session creation: building a session makes no request, and the source ignores its error (pkg/ec2/ec2.go:34-37). A failed session leaves `sess` nil, and the client built from it at pkg/ec2/ec2.go:39 would then panic; that failure depends only on the process environment and is not modelled: the model's client always builds once the credential keys are present.
- Key-pair import request: the tag specification's resource type (`key-pair`, pkg/ec2/ec2.go:174-177) is a fixed constant and is not part of the modelled request, which keeps the pair name, the key material and the tags.
- Launch request fields other than the key name (ImageID, InstanceType, SubnetID, IAMInstanceProfile, UserData, SecurityGroupIDS): the source copies them into the RunInstances request unchanged; the modelled request keeps only the key name.
- Shape of the EC2 responses: a reservation or describe answer with no instances, and nil id or IP pointers, would panic on indexing. A launch answer always has one instance, and a describe answer is an optional IP.
- Kubernetes `Get` and `Update`: each is an answer parameter. Optimistic-concurrency conflicts are one `UpdateErr`. A successful Update is assumed to return the submitted record.
- The Secret's namespace: the lookup answer stands for the Secret in the record's own namespace.
- `controllerutil.AddFinalizer`/`RemoveFinalizer`: modelled as add-if-absent (`AddFinalizer`) and remove-every-occurrence (`RemoveString`).
- Logging, `SetupWithManager`, RBAC markers, scheme registration and the CRD list types: plumbing with no effect on the logic.
- Instance spec fields the source never reads: BlockDeviceMapping and SecurityGroups.
- The key pair's `Spec.KeyName` is kept in `KeyPairSpec` but never read, as in the source: the import request is named after the record's object name.
- Worker concurrency and real time: the 30-second delay is the constant `SecretRetrySeconds`.
- Ec2.BuildTagsOneNameTag: states "exactly one Name tag" only for spec tags that avoid the key `Name`, because the source appends its tag unconditionally and a user `Name` tag would make two.

## Findings

| source | as written | input that shows it | evidently intended | confidence | as-written member | corrected member |
|---|---|---|---|---|---|---|
| pkg/ec2/ec2.go:52 | the early-return guard compares the status with the literal `"Provisioned"`, a value no code path writes (the constant at line 19 is `"provisioned"`); a status that misses it and is not `""` falls through to the nil reservation at line 79 | status `provisioned`, InstanceID `i-0abc` | compare with the `Provisioned` constant, so a provisioned instance is returned unchanged with no launch | medium (not executed; the controller only calls it with status `""`, so the reconcile path is unaffected) | Ec2.CreateInstanceAsWritten | Ec2.CreateInstance |
