/**
 * The two custom resources the operator manages, reduced to the fields the
 * reconciliation logic reads or writes. Kubernetes object metadata is kept to
 * the object name, its finalizer list and whether a deletion timestamp is set.
 */
module Api {

  /** One user-specified tag from a spec's tag list. */
  datatype Tag = Tag(name: string, value: string)

  /** Desired state of an EC2 instance (launch-request fields other than the key name are left out). */
  datatype InstanceSpec = InstanceSpec(
    keyName: string,
    tags: seq<Tag>,
    secret: string,
    publicIPAddress: bool,
    region: string)

  /** Observed state of an EC2 instance; `status` is the provisioning stage as a free string. */
  datatype InstanceStatus = InstanceStatus(
    status: string,
    instanceId: string,
    privateIp: string,
    publicIp: string)

  /** The zero value of `InstanceStatus`, returned alongside errors. */
  const EmptyInstanceStatus := InstanceStatus("", "", "", "")

  /** An Instance record: object name, finalizers, deletion marker, spec and status. */
  datatype Instance = Instance(
    name: string,
    finalizers: seq<string>,
    deletionRequested: bool,
    spec: InstanceSpec,
    status: InstanceStatus)

  /** Desired state of an imported key pair. `keyName` is never read: the import is named after the record's object name. */
  datatype KeyPairSpec = KeyPairSpec(
    keyName: string,
    publicKey: string,
    tags: seq<Tag>,
    secret: string,
    region: string)

  /** Observed state of an imported key pair. */
  datatype KeyPairStatus = KeyPairStatus(status: string, keyPairId: string)

  /** The zero value of `KeyPairStatus`. */
  const EmptyKeyPairStatus := KeyPairStatus("", "")

  /** An ImportKeyPair record. */
  datatype KeyPair = KeyPair(
    name: string,
    finalizers: seq<string>,
    deletionRequested: bool,
    spec: KeyPairSpec,
    status: KeyPairStatus)
}
