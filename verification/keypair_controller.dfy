/**
 * The ImportKeyPair reconciler: the same early exits as the Instance
 * reconciler, a single import step guarded by the empty status, and a
 * deletion branch that deletes the key pair whether or not the finalizer
 * is held.
 */
module KeyPairController {
  import opened Wrappers
  import opened Api
  import Cloud
  import opened Runtime
  import opened Finalizers
  import opened Secrets
  import opened Ec2

  /** The key pair controller's finalizer. */
  const KeyPairFinalizer := "keypair.cattle.io"

  /** Everything outside the reconciler that one reconcile may consult, other than the record itself. */
  datatype World = World(
    secret: SecretLookup,
    imported: Result<string, Cloud.ErrorCode>,
    delete: Outcome<Cloud.ErrorCode>,
    update: UpdateOutcome)

  /** One reconcile: its reply, the EC2 requests it sent, and the record as persisted (None: store untouched). */
  datatype Run = Run(reply: Reply, calls: seq<Cloud.Call>, stored: Option<KeyPair>)

  /** The branch for a record without a deletion timestamp: import once, from the empty status only. */
  function Provision(kp: KeyPair, w: World): (run: Run)
    ensures kp.status.status != "" ==> run == Run(Reply(Done, None), [], None)
    ensures kp.status.status == "" && |kp.spec.publicKey| == 0 ==>
      run == Run(Reply(Done, Some(EmptyKeyPair)), [], None)
    ensures kp.status.status == "" && |kp.spec.publicKey| > 0 ==>
      run.calls == [Cloud.ImportKeyPair(kp.name, kp.spec.publicKey, BuildTags(kp.spec.tags, kp.name))]
    ensures w.imported.Failure? ==> run.stored == None && (run.reply.err.None? <==> kp.status.status != "")
    ensures kp.status.status == "" && |kp.spec.publicKey| > 0 && w.imported.Failure? ==>
      run.reply == Reply(Done, Some(Provider(w.imported.error)))
    ensures kp.status.status == "" && |kp.spec.publicKey| > 0 && w.imported.Success? && w.update.UpdateErr? ==>
      run.stored == None && run.reply == Reply(Done, Some(UpdateFailed))
    ensures run.stored.Some? <==>
      kp.status.status == "" && |kp.spec.publicKey| > 0 && w.imported.Success? && w.update.UpdateOk?
    ensures run.stored.Some? ==>
      run.stored.value == kp.(status := KeyPairStatus(Provisioned, w.imported.value),
                              finalizers := AddFinalizer(kp.finalizers, KeyPairFinalizer)) &&
      run.reply == Reply(Done, None)
    ensures run.reply.err.None? ==> run.reply.result == Done
  {
    if kp.status.status != "" then Run(Reply(Done, None), [], None)
    else
      var step := ImportKeyPair(kp, w.imported);
      if step.err.Some? then Run(Reply(Done, step.err), step.calls, None)
      else
        var next := kp.(finalizers := AddFinalizer(kp.finalizers, KeyPairFinalizer), status := step.status);
        match w.update
        case UpdateErr => Run(Reply(Done, Some(UpdateFailed)), step.calls, None)
        case UpdateOk => Run(Reply(Done, None), step.calls, Some(next))
  }

  /** The branch for a record with a deletion timestamp: delete the key pair, then drop the finalizer. */
  function Finalize(kp: KeyPair, w: World): (run: Run)
    ensures run.calls == [Cloud.DeleteKeyPair(kp.status.keyPairId)]
    ensures w.delete.Fail? ==> run.stored == None && run.reply == Reply(Done, Some(Provider(w.delete.error)))
    ensures run.stored.Some? <==> w.delete.Pass? && w.update.UpdateOk?
    ensures w.delete.Pass? && w.update.UpdateErr? ==> run.stored == None && run.reply == Reply(Done, Some(UpdateFailed))
    ensures run.stored.Some? ==>
      KeyPairFinalizer !in run.stored.value.finalizers &&
      run.stored.value == kp.(finalizers := RemoveString(kp.finalizers, KeyPairFinalizer)) &&
      run.reply == Reply(Done, None)
    ensures run.reply.err.None? ==> run.reply.result == Done
  {
    var down := DeleteKeyPair(kp, w.delete);
    if down.err.Some? then Run(Reply(Done, down.err), down.calls, None)
    else
      var next := kp.(finalizers := RemoveString(kp.finalizers, KeyPairFinalizer));
      match w.update
      case UpdateErr => Run(Reply(Done, Some(UpdateFailed)), down.calls, None)
      case UpdateOk => Run(Reply(Done, None), down.calls, Some(next))
  }

  /** The Secret resolved and a client could be built from it. */
  predicate ClientReady(kp: KeyPair, w: World)
  {
    SecretExists(kp.spec.secret, w.secret).Success? &&
    NewAWSClient(SecretExists(kp.spec.secret, w.secret).value, kp.spec.region).Success?
  }

  /** One reconcile of the key pair the store answered with `get`. */
  function Reconcile(get: Lookup<KeyPair>, w: World): (run: Run)
    ensures get.NotFound? ==> run == Run(Reply(Done, None), [], None)
    ensures get.GetErr? ==> run == Run(Reply(Done, Some(RecordFetchFailed)), [], None)
    ensures get.Found? && SecretExists(get.record.spec.secret, w.secret).Failure? ==>
      run == Run(Reply(RequeueAfter(SecretRetrySeconds), Some(SecretExists(get.record.spec.secret, w.secret).error)), [], None)
    ensures get.Found? && SecretExists(get.record.spec.secret, w.secret).Success? && !ClientReady(get.record, w) ==>
      run == Run(Reply(Done, Some(NewAWSClient(SecretExists(get.record.spec.secret, w.secret).value, get.record.spec.region).error)), [], None) &&
      (run.reply.err.value.NoAccessKey? || run.reply.err.value.NoSecretKey?)
    ensures |run.calls| > 0 || run.stored.Some? ==> get.Found? && ClientReady(get.record, w)
    ensures get.Found? && ClientReady(get.record, w) ==>
      run == (if get.record.deletionRequested then Finalize(get.record, w) else Provision(get.record, w))
    ensures run.reply.err.None? ==> run.reply.result == Done
  {
    match get
    case NotFound => Run(Reply(Done, None), [], None)
    case GetErr => Run(Reply(Done, Some(RecordFetchFailed)), [], None)
    case Found(kp) =>
      match SecretExists(kp.spec.secret, w.secret)
      case Failure(e) => Run(Reply(RequeueAfter(SecretRetrySeconds), Some(e)), [], None)
      case Success(data) =>
        match NewAWSClient(data, kp.spec.region)
        case Failure(e) => Run(Reply(Done, Some(e)), [], None)
        case Success(_) => if kp.deletionRequested then Finalize(kp, w) else Provision(kp, w)
  }

  /** The record the store holds after one reconcile of `kp`. */
  function StoreAfter(kp: KeyPair, w: World): KeyPair
  {
    Reconcile(Found(kp), w).stored.GetOr(kp)
  }

  /** The record after reconciling `kp` once per world in `ws`, and every EC2 request sent on the way. */
  function Drive(kp: KeyPair, ws: seq<World>): (KeyPair, seq<Cloud.Call>)
    decreases |ws|
  {
    if ws == [] then (kp, [])
    else
      var rest := Drive(StoreAfter(kp, ws[0]), ws[1..]);
      (rest.0, Reconcile(Found(kp), ws[0]).calls + rest.1)
  }

  /** Once a live key pair has a status, no further reconcile sends a request or changes it. */
  lemma {:induction false} SubmittedStaysPut(kp: KeyPair, ws: seq<World>)
    requires !kp.deletionRequested && kp.status.status != ""
    ensures Drive(kp, ws) == (kp, [])
    decreases |ws|
  {
    if ws != [] {
      assert StoreAfter(kp, ws[0]) == kp && Reconcile(Found(kp), ws[0]).calls == [];
      SubmittedStaysPut(kp, ws[1..]);
      assert Reconcile(Found(kp), ws[0]).calls + Drive(kp, ws[1..]).1 == [];
    }
  }

  /** A successful import is persisted with a status, so it is never repeated by later live reconciles. */
  lemma ImportHappensOnce(kp: KeyPair, w: World, ws: seq<World>)
    requires !kp.deletionRequested
    requires Reconcile(Found(kp), w).stored.Some?
    ensures Drive(StoreAfter(kp, w), ws) == (StoreAfter(kp, w), [])
  {
    SubmittedStaysPut(StoreAfter(kp, w), ws);
  }

  /** An empty public key never reaches EC2, whatever else the spec or the world says. */
  lemma EmptyPublicKeyNeverSent(kp: KeyPair, w: World)
    requires !kp.deletionRequested && |kp.spec.publicKey| == 0
    ensures Reconcile(Found(kp), w).calls == []
    ensures Reconcile(Found(kp), w).stored == None
  {
  }

  /** The finalizer disappears from the store only in a reconcile whose delete request succeeded. */
  lemma FinalizerDroppedOnlyAfterDelete(kp: KeyPair, w: World)
    requires KeyPairFinalizer in kp.finalizers
    requires KeyPairFinalizer !in StoreAfter(kp, w).finalizers
    ensures Reconcile(Found(kp), w).calls == [Cloud.DeleteKeyPair(kp.status.keyPairId)]
    ensures w.delete.Pass? && kp.deletionRequested
  {
  }

  /** Import records the returned id and the finalizer; a later deletion deletes that id and drops the finalizer. */
  lemma ScenarioImportThenDelete()
    ensures var kp := KeyPair("deploy", [], false, KeyPairSpec("", "ssh-ed25519 AAAA", [], "aws-creds", "eu-west-1"), EmptyKeyPairStatus);
            var w := World(SecretFound(map[AccessKeyField := [], SecretKeyField := []]), Success("key-0123"), Pass, UpdateOk);
            var r1 := Reconcile(Found(kp), w);
            r1.reply == Reply(Done, None) &&
            r1.calls == [Cloud.ImportKeyPair("deploy", "ssh-ed25519 AAAA", [Cloud.Tag(NameTagKey, "deploy")])] &&
            r1.stored == Some(kp.(finalizers := [KeyPairFinalizer], status := KeyPairStatus(Provisioned, "key-0123"))) &&
            var r2 := Reconcile(Found(r1.stored.value.(deletionRequested := true)), w);
            r2.calls == [Cloud.DeleteKeyPair("key-0123")] && r2.reply == Reply(Done, None) &&
            r2.stored.Some? && r2.stored.value.finalizers == []
  {
    assert AddFinalizer([], KeyPairFinalizer) == [KeyPairFinalizer];
    assert BuildTags([], "deploy") == [Cloud.Tag(NameTagKey, "deploy")];
    assert multiset(RemoveString([KeyPairFinalizer], KeyPairFinalizer)) == multiset{};
  }
}
