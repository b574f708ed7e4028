/**
 * The Instance reconciler: early exits, dispatch on the provisioning
 * status, the finalizer protocol on deletion and the requeue decision.
 */
module InstanceController {
  import opened Wrappers
  import opened Api
  import Cloud
  import opened Runtime
  import opened Finalizers
  import opened Secrets
  import opened Ec2

  /** The Instance controller's finalizer. */
  const InstanceFinalizer := "instance.cattle.io"

  /** Everything outside the reconciler that one reconcile may consult, other than the record itself. */
  datatype World = World(
    secret: SecretLookup,
    launch: Result<Cloud.Launched, Cloud.ErrorCode>,
    describe: Result<Option<string>, Cloud.ErrorCode>,
    tag: Outcome<Cloud.ErrorCode>,
    terminate: Outcome<Cloud.ErrorCode>,
    update: UpdateOutcome)

  /** One reconcile: its reply, the EC2 requests it sent, and the record as persisted (None: store untouched). */
  datatype Run = Run(reply: Reply, calls: seq<Cloud.Call>, stored: Option<Instance>)

  /** Statuses that select a provisioning step; every other status takes the no-op default branch. */
  predicate Dispatched(s: string)
  {
    s == "" || s == WaitForTag || s == WaitForPublicIP
  }

  /** The provisioning step selected by `s` reports an error. */
  predicate StepFails(s: string, w: World)
  {
    (s == "" && w.launch.Failure?) ||
    (s == WaitForTag && w.tag.Fail?) ||
    (s == WaitForPublicIP && w.describe.Failure?)
  }

  /**
   * The transition table of the provisioning sequence, independent of the
   * step functions: launch leads to waiting for tags; tagging leads to
   * waiting for a public IP iff one was requested, else to provisioned;
   * describing leads to provisioned or stays.
   */
  predicate TableAllows(s: string, t: string, wantsPublicIP: bool)
  {
    (s == "" && t == WaitForTag) ||
    (s == WaitForTag && t == (if wantsPublicIP then WaitForPublicIP else Provisioned)) ||
    (s == WaitForPublicIP && (t == Provisioned || t == WaitForPublicIP))
  }

  /** Every move the table allows keeps the provisioning order. */
  lemma TableAdvances(s: string, t: string, wantsPublicIP: bool)
    requires TableAllows(s, t, wantsPublicIP)
    ensures Advances(s, t)
  {
  }

  /** Requeue immediately until the record's status is provisioned. */
  function RequeueDecision(inst: Instance): (r: Reply)
    ensures r.err.None?
    ensures r.result == Requeue <==> inst.status.status != Provisioned
    ensures r.result.Done? || r.result.Requeue?
  {
    if inst.status.status != Provisioned then Reply(Requeue, None) else Reply(Done, None)
  }

  /** Persist the step's status with the finalizer added, if the step succeeded. */
  function AfterStep(inst: Instance, step: StepOut<InstanceStatus>, update: UpdateOutcome): (run: Run)
    ensures run.calls == step.calls
    ensures step.err.Some? ==> run == Run(Reply(Done, step.err), step.calls, None)
    ensures step.err.None? && update.UpdateErr? ==> run.reply == Reply(Done, Some(UpdateFailed)) && run.stored == None
    ensures run.stored.Some? <==> step.err.None? && update.UpdateOk?
    ensures run.stored.Some? ==>
      run.stored.value.status == step.status &&
      run.stored.value.spec == inst.spec && run.stored.value.name == inst.name &&
      run.stored.value.deletionRequested == inst.deletionRequested &&
      run.stored.value.finalizers == AddFinalizer(inst.finalizers, InstanceFinalizer) &&
      run.reply == RequeueDecision(run.stored.value)
  {
    if step.err.Some? then Run(Reply(Done, step.err), step.calls, None)
    else
      var next := inst.(status := step.status, finalizers := AddFinalizer(inst.finalizers, InstanceFinalizer));
      match update
      case UpdateErr => Run(Reply(Done, Some(UpdateFailed)), step.calls, None)
      case UpdateOk => Run(RequeueDecision(next), step.calls, Some(next))
  }

  /** The branch for a record without a deletion timestamp: one step selected by the status. */
  function Provision(inst: Instance, w: World): (run: Run)
    ensures inst.status.status == "" ==> run.calls == [LaunchRequest(inst.spec)]
    ensures inst.status.status == WaitForTag ==>
      run.calls == [Cloud.CreateTags(inst.status.instanceId, BuildTags(inst.spec.tags, inst.name))]
    ensures inst.status.status == WaitForPublicIP ==>
      run.calls == [Cloud.DescribeInstances(inst.status.instanceId)]
    ensures !Dispatched(inst.status.status) ==> run == Run(Reply(Done, None), [], None)
    ensures StepFails(inst.status.status, w) ==> run.stored == None
    ensures inst.status.status == "" && w.launch.Failure? ==> run.reply == Reply(Done, Some(Provider(w.launch.error)))
    ensures inst.status.status == WaitForTag && w.tag.Fail? ==> run.reply == Reply(Done, Some(Provider(w.tag.error)))
    ensures inst.status.status == WaitForPublicIP && w.describe.Failure? ==>
      run.reply == Reply(Done, Some(Provider(w.describe.error)))
    ensures Dispatched(inst.status.status) && !StepFails(inst.status.status, w) && w.update.UpdateErr? ==>
      run.stored == None && run.reply == Reply(Done, Some(UpdateFailed))
    ensures run.stored.Some? <==>
      Dispatched(inst.status.status) && !StepFails(inst.status.status, w) && w.update.UpdateOk?
    ensures inst.status.status == "" && run.stored.Some? ==>
      run.stored.value.status == InstanceStatus(WaitForTag, w.launch.value.instanceId, w.launch.value.privateIp, "")
    ensures inst.status.status == WaitForTag && run.stored.Some? ==>
      run.stored.value.status == inst.status.(status := if inst.spec.publicIPAddress then WaitForPublicIP else Provisioned)
    ensures inst.status.status == WaitForPublicIP && run.stored.Some? ==>
      run.stored.value.status ==
        (if w.describe.value.Some? then inst.status.(status := Provisioned, publicIp := w.describe.value.value) else inst.status)
    ensures run.stored.Some? ==>
      TableAllows(inst.status.status, run.stored.value.status.status, inst.spec.publicIPAddress) &&
      ContainsString(run.stored.value.finalizers, InstanceFinalizer) &&
      run.stored.value == inst.(status := run.stored.value.status,
                                finalizers := AddFinalizer(inst.finalizers, InstanceFinalizer)) &&
      run.reply == RequeueDecision(run.stored.value)
  {
    var s := inst.status.status;
    if s == "" then AfterStep(inst, CreateInstance(inst, w.launch), w.update)
    else if s == WaitForPublicIP then AfterStep(inst, FetchPublicIP(inst, w.describe), w.update)
    else if s == WaitForTag then AfterStep(inst, UpdateTags(inst, w.tag), w.update)
    else Run(Reply(Done, None), [], None)
  }

  /** The branch for a record with a deletion timestamp: terminate if the finalizer is held, then drop the finalizer. */
  function Finalize(inst: Instance, w: World): (run: Run)
    ensures InstanceFinalizer in inst.finalizers ==> run.calls == [Cloud.TerminateInstances(inst.status.instanceId)]
    ensures InstanceFinalizer !in inst.finalizers ==> run.calls == []
    ensures InstanceFinalizer in inst.finalizers && w.terminate.Fail? ==>
      run.stored == None && run.reply == Reply(Done, Some(Provider(w.terminate.error)))
    ensures run.stored.Some? <==> (InstanceFinalizer !in inst.finalizers || w.terminate.Pass?) && w.update.UpdateOk?
    ensures (InstanceFinalizer !in inst.finalizers || w.terminate.Pass?) && w.update.UpdateErr? ==>
      run.stored == None && run.reply == Reply(Done, Some(UpdateFailed))
    ensures run.stored.Some? ==>
      InstanceFinalizer !in run.stored.value.finalizers &&
      run.stored.value == inst.(finalizers := RemoveString(inst.finalizers, InstanceFinalizer)) &&
      run.reply == RequeueDecision(inst)
  {
    var held := ContainsString(inst.finalizers, InstanceFinalizer);
    var down := if held then DeleteInstance(inst, w.terminate) else Ec2.Teardown(None, []);
    if down.err.Some? then Run(Reply(Done, down.err), down.calls, None)
    else
      var next := inst.(finalizers := RemoveString(inst.finalizers, InstanceFinalizer));
      match w.update
      case UpdateErr => Run(Reply(Done, Some(UpdateFailed)), down.calls, None)
      case UpdateOk => Run(RequeueDecision(next), down.calls, Some(next))
  }

  /** The Secret resolved and a client could be built from it. */
  predicate ClientReady(inst: Instance, w: World)
  {
    SecretExists(inst.spec.secret, w.secret).Success? &&
    NewAWSClient(SecretExists(inst.spec.secret, w.secret).value, inst.spec.region).Success?
  }

  /** One reconcile of the Instance the store answered with `get`. */
  function Reconcile(get: Lookup<Instance>, w: World): (run: Run)
    ensures get.NotFound? ==> run == Run(Reply(Done, None), [], None)
    ensures get.GetErr? ==> run == Run(Reply(Done, Some(RecordFetchFailed)), [], None)
    ensures get.Found? && SecretExists(get.record.spec.secret, w.secret).Failure? ==>
      run == Run(Reply(RequeueAfter(SecretRetrySeconds), Some(SecretExists(get.record.spec.secret, w.secret).error)), [], None)
    ensures get.Found? && |get.record.spec.secret| == 0 ==>
      run.reply == Reply(RequeueAfter(SecretRetrySeconds), Some(NoSecretSpecified)) && run.calls == []
    ensures get.Found? && SecretExists(get.record.spec.secret, w.secret).Success? && !ClientReady(get.record, w) ==>
      run == Run(Reply(Done, Some(NewAWSClient(SecretExists(get.record.spec.secret, w.secret).value, get.record.spec.region).error)), [], None) &&
      (run.reply.err.value.NoAccessKey? || run.reply.err.value.NoSecretKey?)
    ensures |run.calls| > 0 || run.stored.Some? ==> get.Found? && ClientReady(get.record, w)
    ensures get.Found? && ClientReady(get.record, w) ==>
      run == (if get.record.deletionRequested then Finalize(get.record, w) else Provision(get.record, w))
    ensures run.reply.err.None? ==> (run.reply.result == Requeue <==> run.stored.Some? && run.stored.value.status.status != Provisioned)
  {
    match get
    case NotFound => Run(Reply(Done, None), [], None)
    case GetErr => Run(Reply(Done, Some(RecordFetchFailed)), [], None)
    case Found(inst) =>
      match SecretExists(inst.spec.secret, w.secret)
      case Failure(e) => Run(Reply(RequeueAfter(SecretRetrySeconds), Some(e)), [], None)
      case Success(data) =>
        match NewAWSClient(data, inst.spec.region)
        case Failure(e) => Run(Reply(Done, Some(e)), [], None)
        case Success(_) => if inst.deletionRequested then Finalize(inst, w) else Provision(inst, w)
  }
}
