/**
 * The boundary to the Kubernetes side: what a store lookup can answer, what
 * an Update can answer, the errors a reconcile reports and the
 * controller-runtime result it hands back to the work queue.
 */
module Runtime {
  import opened Wrappers

  /** Answer of a `Get` for the reconciled record. */
  datatype Lookup<T> = Found(record: T) | NotFound | GetErr

  /** Answer of a `Get` for the credential Secret: its data map, or nothing (absent or failed). */
  datatype SecretLookup = SecretMissing | SecretFound(data: map<string, seq<bv8>>)

  /** Answer of an `Update` of the reconciled record (a conflict or any other failure is `UpdateErr`). */
  datatype UpdateOutcome = UpdateOk | UpdateErr

  /** Every error a reconcile can return. */
  datatype Error =
    | RecordFetchFailed
    | NoSecretSpecified
    | SecretFetchFailed
    | NoAccessKey
    | NoSecretKey
    | EmptyKeyPair
    | Provider(code: string)
    | UpdateFailed

  /** `ctrl.Result`: nothing more to do, requeue immediately, or requeue after a delay in seconds. */
  datatype CtrlResult = Done | Requeue | RequeueAfter(seconds: nat)

  /** What `Reconcile` returns: the result and the (possibly nil) error. */
  datatype Reply = Reply(result: CtrlResult, err: Option<Error>)

  /** The fixed delay before retrying a record whose Secret could not be resolved. */
  const SecretRetrySeconds: nat := 30
}
