/**
 * The AWS client layer: credential extraction, client construction and one
 * step of each resource's provisioning sequence. Each step takes the answer
 * of its EC2 request as a parameter and returns the status Go returns, the
 * error Go returns, and the request it sent.
 */
module Ec2 {
  import opened Wrappers
  import opened Api
  import Cloud
  import opened Runtime

  /** Status values the client writes. */
  const Provisioned := "provisioned"
  const WaitForPublicIP := "waitforpublicip"
  const WaitForTag := "waitfortag"

  /** Status an ImportKeyPair step reports when EC2 rejects the import. */
  const KeyPairFailed := "error"

  /** Keys of the credential Secret. */
  const AccessKeyField := "aws_access_key"
  const SecretKeyField := "aws_secret_key"

  /** Key of the tag every resource receives, carrying the record's object name. */
  const NameTagKey := "Name"

  datatype Credentials = Credentials(accessKey: seq<bv8>, secretKey: seq<bv8>)

  /** A client bound to credentials and a region; building one makes no request. */
  datatype AWSClient = AWSClient(creds: Credentials, region: string)

  /** What one provisioning step returns: Go's `(status, err)` plus the requests it sent. */
  datatype StepOut<S> = StepOut(status: S, err: Option<Error>, calls: seq<Cloud.Call>)

  /** What a teardown step returns: Go's `err` plus the request it sent. */
  datatype Teardown = Teardown(err: Option<Error>, calls: seq<Cloud.Call>)

  /** Outcome of running code that may dereference a nil pointer. */
  datatype Exec<T> = Returns(value: T) | NilDereference

  // ---------------------------------------------------------------------
  // Status order
  // ---------------------------------------------------------------------

  /** Position of an instance status in the provisioning order; None for a status the controller does not know. */
  function Stage(s: string): Option<nat>
  {
    if s == "" then Some(0)
    else if s == WaitForTag then Some(1)
    else if s == WaitForPublicIP then Some(2)
    else if s == Provisioned then Some(3)
    else None
  }

  /** `t` is `s` or a strictly later known stage than `s`. */
  predicate Advances(s: string, t: string)
  {
    s == t || (Stage(s).Some? && Stage(t).Some? && Stage(s).value < Stage(t).value)
  }

  lemma AdvancesTransitive(s: string, t: string, u: string)
    requires Advances(s, t) && Advances(t, u)
    ensures Advances(s, u)
  {
  }

  // ---------------------------------------------------------------------
  // Credentials and client
  // ---------------------------------------------------------------------

  /** Both credential keys are present (their values may be empty). */
  predicate HasCredentialKeys(data: map<string, seq<bv8>>)
  {
    AccessKeyField in data && SecretKeyField in data
  }

  /** Static credentials from a Secret's data; the access key is looked up first. */
  function CreateCredentials(data: map<string, seq<bv8>>): (r: Result<Credentials, Error>)
    ensures r.Success? <==> HasCredentialKeys(data)
    ensures AccessKeyField !in data ==> r == Failure(NoAccessKey)
    ensures AccessKeyField in data && SecretKeyField !in data ==> r == Failure(NoSecretKey)
    ensures r.Success? ==> r.value.accessKey == data[AccessKeyField] && r.value.secretKey == data[SecretKeyField]
  {
    if AccessKeyField !in data then Failure(NoAccessKey)
    else if SecretKeyField !in data then Failure(NoSecretKey)
    else Success(Credentials(data[AccessKeyField], data[SecretKeyField]))
  }

  /** A client for `region`; fails exactly when the credentials cannot be built, with the same error. */
  function NewAWSClient(data: map<string, seq<bv8>>, region: string): (r: Result<AWSClient, Error>)
    ensures r.Success? <==> HasCredentialKeys(data)
    ensures r.Failure? ==> r.error == (if AccessKeyField !in data then NoAccessKey else NoSecretKey)
    ensures r.Success? ==> r.value.region == region
  {
    match CreateCredentials(data)
    case Failure(e) => Failure(e)
    case Success(c) => Success(AWSClient(c, region))
  }

  // ---------------------------------------------------------------------
  // Tags
  // ---------------------------------------------------------------------

  /** The spec's tags converted one by one, in spec order. */
  function SpecTags(ts: seq<Tag>): (r: seq<Cloud.Tag>)
    ensures |r| == |ts|
    ensures forall i :: 0 <= i < |ts| ==> r[i] == Cloud.Tag(ts[i].name, ts[i].value)
  {
    if ts == [] then []
    else SpecTags(ts[..|ts| - 1]) + [Cloud.Tag(ts[|ts| - 1].name, ts[|ts| - 1].value)]
  }

  /** The tags sent to EC2: the spec's tags in order, then one `Name` tag carrying the object name. */
  function BuildTags(ts: seq<Tag>, objectName: string): (r: seq<Cloud.Tag>)
    ensures |r| == |ts| + 1
    ensures forall i :: 0 <= i < |ts| ==> r[i] == Cloud.Tag(ts[i].name, ts[i].value)
    ensures r[|ts|] == Cloud.Tag(NameTagKey, objectName)
  {
    SpecTags(ts) + [Cloud.Tag(NameTagKey, objectName)]
  }

  /** Tags without a `Name` key contribute none; the operator's own `Name` tag is then the only one. */
  lemma BuildTagsOneNameTag(ts: seq<Tag>, objectName: string)
    requires forall i :: 0 <= i < |ts| ==> ts[i].name != NameTagKey
    ensures forall j :: 0 <= j < |ts| + 1 ==>
      (BuildTags(ts, objectName)[j].key == NameTagKey <==> j == |ts|)
  {
  }

  // ---------------------------------------------------------------------
  // Instance steps
  // ---------------------------------------------------------------------

  /** The RunInstances request for a spec: it names a key pair exactly when the spec's key name is non-empty. */
  function LaunchRequest(spec: InstanceSpec): (c: Cloud.Call)
    ensures c.RunInstances?
    ensures c.keyName.Some? <==> |spec.keyName| > 0
    ensures c.keyName.Some? ==> c.keyName.value == spec.keyName
  {
    Cloud.RunInstances(if |spec.keyName| > 0 then Some(spec.keyName) else None)
  }

  /**
   * Statuses `CreateInstance` is defined on: the unsubmitted status, or a
   * provisioned instance with an id (its early return). On any other status
   * the Go code dereferences a nil reservation.
   */
  predicate CreateInstanceDefined(st: InstanceStatus)
  {
    st.status == "" || (st.status == Provisioned && |st.instanceId| > 0)
  }

  /** Launch step, with the early-return guard testing the `provisioned` constant. */
  function CreateInstance(inst: Instance, launch: Result<Cloud.Launched, Cloud.ErrorCode>): (out: StepOut<InstanceStatus>)
    requires CreateInstanceDefined(inst.status)
    ensures inst.status.status != "" ==> out == StepOut(inst.status, None, [])
    ensures inst.status.status == "" ==> out.calls == [LaunchRequest(inst.spec)]
    ensures inst.status.status == "" && launch.Success? ==>
      out.err == None &&
      out.status == InstanceStatus(WaitForTag, launch.value.instanceId, launch.value.privateIp, "")
    ensures inst.status.status == "" && launch.Failure? ==>
      out.err == Some(Provider(launch.error)) && out.status == EmptyInstanceStatus
  {
    if inst.status.status == Provisioned && |inst.status.instanceId| > 0 then
      StepOut(inst.status, None, [])
    else
      var call := LaunchRequest(inst.spec);
      match launch
      case Failure(e) => StepOut(EmptyInstanceStatus, Some(Provider(e)), [call])
      case Success(l) => StepOut(InstanceStatus(WaitForTag, l.instanceId, l.privateIp, ""), None, [call])
  }

  /**
   * The launch step exactly as the source writes it: the early return tests
   * the literal "Provisioned", which no code path ever stores, and every
   * status other than "" that misses it reaches the nil reservation.
   */
  function CreateInstanceAsWritten(inst: Instance, launch: Result<Cloud.Launched, Cloud.ErrorCode>): (x: Exec<StepOut<InstanceStatus>>)
    ensures x.NilDereference? <==>
      inst.status.status != "" && !(inst.status.status == "Provisioned" && |inst.status.instanceId| > 0)
    ensures x.Returns? && inst.status.status != "" ==> x.value == StepOut(inst.status, None, [])
  {
    if inst.status.status == "Provisioned" && |inst.status.instanceId| > 0 then
      Returns(StepOut(inst.status, None, []))
    else if inst.status.status == "" then
      Returns(CreateInstance(inst, launch))
    else
      NilDereference
  }

  /** On the unsubmitted status, the only one the controller launches from, both versions agree. */
  lemma CreateInstanceAgreesWhenUnsubmitted(inst: Instance, launch: Result<Cloud.Launched, Cloud.ErrorCode>)
    requires inst.status.status == ""
    ensures CreateInstanceAsWritten(inst, launch) == Returns(CreateInstance(inst, launch))
  {
  }

  /** A provisioned instance with an id reaches the nil reservation as written, but is returned unchanged once corrected. */
  lemma CreateInstanceProvisionedGuardMissed()
    ensures var inst := Instance("web", [], false, InstanceSpec("", [], "creds", false, "us-east-1"),
                                 InstanceStatus(Provisioned, "i-0abc", "10.0.0.5", ""));
            CreateInstanceAsWritten(inst, Failure("unused")).NilDereference? &&
            CreateInstance(inst, Failure("unused")) == StepOut(inst.status, None, [])
  {
  }

  /** Terminate the instance recorded in the status. */
  function DeleteInstance(inst: Instance, terminate: Outcome<Cloud.ErrorCode>): (out: Teardown)
    ensures out.calls == [Cloud.TerminateInstances(inst.status.instanceId)]
    ensures out.err.None? <==> terminate.Pass?
    ensures terminate.Fail? ==> out.err == Some(Provider(terminate.error))
  {
    Teardown(if terminate.Pass? then None else Some(Provider(terminate.error)),
             [Cloud.TerminateInstances(inst.status.instanceId)])
  }

  /** Describe step: a reported public IP completes provisioning; no IP leaves the status as it was. */
  function FetchPublicIP(inst: Instance, describe: Result<Option<string>, Cloud.ErrorCode>): (out: StepOut<InstanceStatus>)
    ensures out.calls == [Cloud.DescribeInstances(inst.status.instanceId)]
    ensures out.err.None? <==> describe.Success?
    ensures describe.Failure? ==> out.err == Some(Provider(describe.error)) && out.status == EmptyInstanceStatus
    ensures describe.Success? && describe.value.Some? ==>
      out.status.status == Provisioned && out.status.publicIp == describe.value.value
    ensures describe.Success? && describe.value.None? ==> out.status == inst.status
    ensures describe.Success? ==>
      out.status.instanceId == inst.status.instanceId && out.status.privateIp == inst.status.privateIp
  {
    var call := Cloud.DescribeInstances(inst.status.instanceId);
    match describe
    case Failure(e) => StepOut(EmptyInstanceStatus, Some(Provider(e)), [call])
    case Success(None) => StepOut(inst.status, None, [call])
    case Success(Some(ip)) => StepOut(inst.status.(status := Provisioned, publicIp := ip), None, [call])
  }

  /** Tag step: success moves to waiting for a public IP when one was asked for, and to provisioned otherwise. */
  function UpdateTags(inst: Instance, tag: Outcome<Cloud.ErrorCode>): (out: StepOut<InstanceStatus>)
    ensures out.calls == [Cloud.CreateTags(inst.status.instanceId, BuildTags(inst.spec.tags, inst.name))]
    ensures out.err.None? <==> tag.Pass?
    ensures tag.Fail? ==> out.err == Some(Provider(tag.error)) && out.status == EmptyInstanceStatus
    ensures tag.Pass? ==> (out.status.status == WaitForPublicIP <==> inst.spec.publicIPAddress)
    ensures tag.Pass? ==> (out.status.status == Provisioned <==> !inst.spec.publicIPAddress)
    ensures tag.Pass? ==>
      out.status.instanceId == inst.status.instanceId && out.status.privateIp == inst.status.privateIp &&
      out.status.publicIp == inst.status.publicIp
  {
    var call := Cloud.CreateTags(inst.status.instanceId, BuildTags(inst.spec.tags, inst.name));
    match tag
    case Fail(e) => StepOut(EmptyInstanceStatus, Some(Provider(e)), [call])
    case Pass =>
      var next := if inst.spec.publicIPAddress then WaitForPublicIP else Provisioned;
      StepOut(inst.status.(status := next), None, [call])
  }

  // ---------------------------------------------------------------------
  // Key pair steps
  // ---------------------------------------------------------------------

  /** Import step: an empty public key fails before any request; otherwise the import's answer decides the status. */
  function ImportKeyPair(kp: KeyPair, imported: Result<string, Cloud.ErrorCode>): (out: StepOut<KeyPairStatus>)
    ensures |kp.spec.publicKey| == 0 ==> out == StepOut(EmptyKeyPairStatus, Some(EmptyKeyPair), [])
    ensures |kp.spec.publicKey| > 0 ==>
      out.calls == [Cloud.ImportKeyPair(kp.name, kp.spec.publicKey, BuildTags(kp.spec.tags, kp.name))]
    ensures |kp.spec.publicKey| > 0 && imported.Failure? ==>
      out.status == KeyPairStatus(KeyPairFailed, "") && out.err == Some(Provider(imported.error))
    ensures |kp.spec.publicKey| > 0 && imported.Success? ==>
      out.status == KeyPairStatus(Provisioned, imported.value) && out.err.None?
  {
    if |kp.spec.publicKey| == 0 then StepOut(EmptyKeyPairStatus, Some(EmptyKeyPair), [])
    else
      var call := Cloud.ImportKeyPair(kp.name, kp.spec.publicKey, BuildTags(kp.spec.tags, kp.name));
      match imported
      case Failure(e) => StepOut(KeyPairStatus(KeyPairFailed, ""), Some(Provider(e)), [call])
      case Success(id) => StepOut(KeyPairStatus(Provisioned, id), None, [call])
  }

  /** Delete the key pair recorded in the status. */
  function DeleteKeyPair(kp: KeyPair, delete: Outcome<Cloud.ErrorCode>): (out: Teardown)
    ensures out.calls == [Cloud.DeleteKeyPair(kp.status.keyPairId)]
    ensures out.err.None? <==> delete.Pass?
    ensures delete.Fail? ==> out.err == Some(Provider(delete.error))
  {
    Teardown(if delete.Pass? then None else Some(Provider(delete.error)),
             [Cloud.DeleteKeyPair(kp.status.keyPairId)])
  }
}
