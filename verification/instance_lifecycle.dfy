/**
 * Properties of the Instance reconciler across many reconciles. The store
 * is folded through successive reconciles: each one sees the record the
 * previous one persisted, and the world it meets is a parameter.
 */
module InstanceLifecycle {
  import opened Wrappers
  import opened Api
  import Cloud
  import opened Runtime
  import opened Finalizers
  import opened Ec2
  import opened InstanceController

  /** The record the store holds after one reconcile of `rec`. */
  function StoreAfter(rec: Instance, w: World): Instance
  {
    Reconcile(Found(rec), w).stored.GetOr(rec)
  }

  /** The record after reconciling `rec` once per world in `ws`, in order, and every EC2 request sent on the way. */
  function Drive(rec: Instance, ws: seq<World>): (Instance, seq<Cloud.Call>)
    decreases |ws|
  {
    if ws == [] then (rec, [])
    else
      var rest := Drive(StoreAfter(rec, ws[0]), ws[1..]);
      (rest.0, Reconcile(Found(rec), ws[0]).calls + rest.1)
  }

  /** One reconcile never moves the status backwards in the provisioning order. */
  lemma StepAdvances(rec: Instance, w: World)
    ensures Advances(rec.status.status, StoreAfter(rec, w).status.status)
  {
  }

  /** No sequence of reconciles moves the status backwards in the provisioning order. */
  lemma {:induction false} DriveNeverRegresses(rec: Instance, ws: seq<World>)
    ensures Advances(rec.status.status, Drive(rec, ws).0.status.status)
    decreases |ws|
  {
    if ws != [] {
      var next := StoreAfter(rec, ws[0]);
      StepAdvances(rec, ws[0]);
      DriveNeverRegresses(next, ws[1..]);
      AdvancesTransitive(rec.status.status, next.status.status, Drive(next, ws[1..]).0.status.status);
    }
  }

  /** A status outside the dispatched ones (provisioned included) makes a live reconcile a no-op. */
  lemma UndispatchedIsNoOp(rec: Instance, w: World)
    requires !rec.deletionRequested && !Dispatched(rec.status.status)
    ensures Reconcile(Found(rec), w).calls == []
    ensures Reconcile(Found(rec), w).stored == None
    ensures ClientReady(rec, w) ==> Reconcile(Found(rec), w).reply == Reply(Done, None)
  {
  }

  /** Reconciling a provisioned, live record any number of times sends nothing and changes nothing. */
  lemma {:induction false} ProvisionedStaysPut(rec: Instance, ws: seq<World>)
    requires !rec.deletionRequested && rec.status.status == Provisioned
    ensures Drive(rec, ws) == (rec, [])
    decreases |ws|
  {
    if ws != [] {
      UndispatchedIsNoOp(rec, ws[0]);
      assert StoreAfter(rec, ws[0]) == rec;
      ProvisionedStaysPut(rec, ws[1..]);
      assert Reconcile(Found(rec), ws[0]).calls + Drive(rec, ws[1..]).1 == [];
    }
  }

  /** The finalizer disappears from the store only in a reconcile that terminated the recorded instance successfully. */
  lemma FinalizerDroppedOnlyAfterTerminate(rec: Instance, w: World)
    requires InstanceFinalizer in rec.finalizers
    requires InstanceFinalizer !in StoreAfter(rec, w).finalizers
    ensures Reconcile(Found(rec), w).calls == [Cloud.TerminateInstances(rec.status.instanceId)]
    ensures w.terminate.Pass? && rec.deletionRequested
  {
  }

  /** A launch that was persisted is the one a later deletion terminates: the id EC2 returned is the id sent to TerminateInstances. */
  lemma LaunchedIsTerminated(rec: Instance, w1: World, w2: World)
    requires !rec.deletionRequested && rec.status.status == ""
    requires Reconcile(Found(rec), w1).stored.Some?
    requires ClientReady(rec, w2)
    ensures w1.launch.Success?
    ensures var deleting := StoreAfter(rec, w1).(deletionRequested := true);
            Reconcile(Found(deleting), w2).calls == [Cloud.TerminateInstances(w1.launch.value.instanceId)]
  {
  }

  /** While every terminate fails, a record being deleted keeps its finalizer: the store never changes, and the only requests are terminates of the recorded instance. */
  lemma {:induction false} FailedTeardownKeepsFinalizer(rec: Instance, ws: seq<World>)
    requires rec.deletionRequested && InstanceFinalizer in rec.finalizers
    requires forall i :: 0 <= i < |ws| ==> ws[i].terminate.Fail?
    ensures Drive(rec, ws).0 == rec
    ensures InstanceFinalizer in Drive(rec, ws).0.finalizers
    ensures forall c :: c in Drive(rec, ws).1 ==> c == Cloud.TerminateInstances(rec.status.instanceId)
    decreases |ws|
  {
    if ws != [] {
      assert ws[0].terminate.Fail?;
      assert StoreAfter(rec, ws[0]) == rec;
      FailedTeardownKeepsFinalizer(rec, ws[1..]);
    }
  }

  /** A world in which the Secret resolves and every request succeeds. */
  function HappyWorld(describe: Result<Option<string>, Cloud.ErrorCode>): World
  {
    World(SecretFound(map[AccessKeyField := [], SecretKeyField := []]),
          Success(Cloud.Launched("i-1", "10.0.0.1")), describe, Pass, Pass, UpdateOk)
  }

  /** Without a public IP: launch, then tag straight to provisioned, then nothing. */
  lemma ScenarioWithoutPublicIP()
    ensures var rec0 := Instance("web", [], false, InstanceSpec("", [], "aws-creds", false, "us-west-2"), EmptyInstanceStatus);
            var w := HappyWorld(Success(None));
            var r1 := Reconcile(Found(rec0), w);
            r1.calls == [Cloud.RunInstances(None)] && r1.reply == Reply(Requeue, None) &&
            r1.stored == Some(rec0.(finalizers := [InstanceFinalizer],
                                    status := InstanceStatus(WaitForTag, "i-1", "10.0.0.1", ""))) &&
            var r2 := Reconcile(Found(r1.stored.value), w);
            r2.calls == [Cloud.CreateTags("i-1", [Cloud.Tag(NameTagKey, "web")])] && r2.reply == Reply(Done, None) &&
            r2.stored.Some? && r2.stored.value.status.status == Provisioned &&
            var r3 := Reconcile(Found(r2.stored.value), w);
            r3 == Run(Reply(Done, None), [], None)
  {
    assert AddFinalizer([], InstanceFinalizer) == [InstanceFinalizer];
    assert BuildTags([], "web") == [Cloud.Tag(NameTagKey, "web")];
  }

  /** With a public IP: after tagging, a describe without an IP requeues in place; one with an IP completes and records it. */
  lemma ScenarioWithPublicIP()
    ensures var rec := Instance("web", [InstanceFinalizer], false, InstanceSpec("", [], "aws-creds", true, "us-west-2"),
                                InstanceStatus(WaitForTag, "i-1", "10.0.0.1", ""));
            var r1 := Reconcile(Found(rec), HappyWorld(Success(None)));
            r1.reply == Reply(Requeue, None) && r1.stored.Some? && r1.stored.value.status.status == WaitForPublicIP &&
            var r2 := Reconcile(Found(r1.stored.value), HappyWorld(Success(None)));
            r2.calls == [Cloud.DescribeInstances("i-1")] && r2.reply == Reply(Requeue, None) &&
            r2.stored == r1.stored &&
            var r3 := Reconcile(Found(r2.stored.value), HappyWorld(Success(Some("3.3.3.3"))));
            r3.reply == Reply(Done, None) &&
            r3.stored == Some(rec.(status := InstanceStatus(Provisioned, "i-1", "10.0.0.1", "3.3.3.3")))
  {
  }
}
