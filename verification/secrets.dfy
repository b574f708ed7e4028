/** Resolution of the credential Secret a record names, shared by both controllers. */
module Secrets {
  import opened Wrappers
  import opened Runtime

  /**
   * The Secret's data when the record names a Secret and the store returns
   * it. An empty name fails without consulting the store.
   */
  function SecretExists(secretName: string, lookup: SecretLookup): (r: Result<map<string, seq<bv8>>, Error>)
    ensures r.Success? <==> |secretName| > 0 && lookup.SecretFound?
    ensures |secretName| == 0 ==> r == Failure(NoSecretSpecified)
    ensures |secretName| > 0 && lookup.SecretMissing? ==> r == Failure(SecretFetchFailed)
    ensures r.Success? ==> r.value == lookup.data
  {
    if |secretName| == 0 then Failure(NoSecretSpecified)
    else match lookup
      case SecretMissing => Failure(SecretFetchFailed)
      case SecretFound(data) => Success(data)
  }
}
