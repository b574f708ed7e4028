/**
 * The boundary to the EC2 API: the requests the operator sends and the
 * shapes of the answers it reads. Every answer is a parameter of the model,
 * so nothing here talks to a network.
 */
module Cloud {
  import opened Wrappers

  /** A tag as sent to EC2 (`Key`/`Value`). */
  datatype Tag = Tag(key: string, value: string)

  /** One EC2 API request, as it appears in a reconcile's call trace. */
  datatype Call =
    | RunInstances(keyName: Option<string>)
    | CreateTags(resource: string, tags: seq<Tag>)
    | DescribeInstances(instanceId: string)
    | TerminateInstances(instanceId: string)
    | ImportKeyPair(pairName: string, publicKeyMaterial: string, tags: seq<Tag>)
    | DeleteKeyPair(keyPairId: string)

  /** What a successful RunInstances reports about its (single) instance. */
  datatype Launched = Launched(instanceId: string, privateIp: string)

  /** An EC2 error code, passed through unchanged. */
  type ErrorCode = string
}
