/** What the gated read-check-write methods can do to the store (pkg/capi/client.go, pkg/capi/policy.go). */
module Gated {
  import opened Wrappers
  import opened Policy
  import opened Store
  import opened Interleaving
  import opened Footprint
  import opened Changes
  import opened Capi

  /** An update by this client of a state the policy let it update. */
  ghost predicate IsGatedUpdate(p: WritePolicy, e: Event) {
    && e.Write?
    && e.actor == Ours
    && e.before.Some?
    && e.after.Some?
    && CheckUpdate(p, e.before.value.labels, e.before.value.annotations).None?
  }

  /** after is what change makes of before, under the resourceVersion of the write. */
  ghost predicate IsResultOf(e: Event, change: Change, now: nat) {
    && e.Write?
    && e.before.Some?
    && e.after.Some?
    && KindOf(e.before.value.body) == Target(change)
    && e.after.value == Apply(change, e.before.value, now).(rv := e.after.value.rv)
  }

  /** At most one write, of key, by change, and only a lost reply hides that it happened. */
  ghost predicate WritesOnce(p: WritePolicy, key: Key, change: Change, now: nat, made: seq<Event>, err: Option<Error>) {
    && |made| <= 1
    && (made == [] ==> err.Some?)
    && (made != [] ==>
          && IsGatedUpdate(p, made[0])
          && made[0].key == key
          && IsResultOf(made[0], change, now)
          && (err.None? || err == Some(Api(Unavailable))))
  }

  /** o was read from the earlier world origin; if the update is applied, o is also what it replaces. */
  lemma CheckAndWriteMade(origin: World, s: Sys, p: WritePolicy, ctx: Context, key: Key, o: Object, change: Change)
    requires Valid(origin) && Valid(s.world) && Later(origin, s.world)
    requires key in origin.objects && origin.objects[key] == o
    requires key.kind == Target(change) == KindOf(o.body)
    ensures var out := CheckAndWrite(s, p, ctx, key, o, change);
            && Extends(s, out.sys)
            && WritesOnce(p, key, change, s.world.now, Made(s, out.sys), out.err)
            && (Made(s, out.sys) != [] ==> Made(s, out.sys)[0].before == Some(o))
  {
    MadeNothing(s, s);
    var changed := Apply(change, o, s.world.now);
    UpdateMade(s, ctx, key, changed);
    ArriveFollows(s);
    LaterTransitive(origin, s.world, Arrive(s).world);
    var made := Made(s, Update(s, ctx, key, changed).sys);
    if made != [] {
      SameVersionSameObject(origin, Arrive(s).world, key);
    }
  }

  /** Whatever others write between the two requests, an applied rewrite replaces the very state it checked. */
  lemma RewriteMade(s: Sys, p: WritePolicy, ctx: Context, key: Key, change: Change)
    requires Valid(s.world) && key.kind == Target(change)
    ensures var out := Rewrite(s, p, ctx, key, change);
            && Extends(s, out.sys)
            && WritesOnce(p, key, change, Arrive(s).world.now, Made(s, out.sys), out.err)
  {
    var got := Get(s, ctx, key);
    ArriveMade(s);
    GetFollows(s, ctx, key);
    if got.result.Success? {
      var out := CheckAndWrite(got.sys, p, ctx, key, got.result.value, change);
      LaterReflexive(got.sys.world);
      CheckAndWriteMade(got.sys.world, got.sys, p, ctx, key, got.result.value, change);
      MadeAppend(s, got.sys, out.sys);
      assert Made(s, out.sys) == Made(got.sys, out.sys);
    }
  }

  /** A write that was applied reports success if and only if the reply to its update arrived. */
  lemma WriteIsReportedIffAnswered(s: Sys, p: WritePolicy, ctx: Context, key: Key, o: Object, change: Change)
    requires KindOf(o.body) == Target(change)
    requires Made(s, CheckAndWrite(s, p, ctx, key, o, change).sys) != []
    ensures CheckAndWrite(s, p, ctx, key, o, change).err.None? <==> Head(s).fault == Delivered
  {
    hide CheckUpdate, Made, Apply;
    MadeNothing(s, s);
    ArriveMade(s);
    UpdateMade(s, ctx, key, Apply(change, o, s.world.now));
  }

  lemma AppliedIsReportedIffAnswered(s: Sys, p: WritePolicy, ctx: Context, key: Key, change: Change)
    requires Valid(s.world) && key.kind == Target(change)
    requires Made(s, Rewrite(s, p, ctx, key, change).sys) != []
    ensures Rewrite(s, p, ctx, key, change).err.None? <==> Head(Arrive(s)).fault == Delivered
  {
    hide Valid, CheckUpdate, Made, Apply, CheckAndWrite, Extends;
    var got := Get(s, ctx, key);
    ArriveMade(s);
    GetFollows(s, ctx, key);
    FollowsGives(s, got.sys);
    if got.result.Success? {
      KindOfStored(got.sys.world, key);
      var out := CheckAndWrite(got.sys, p, ctx, key, got.result.value, change);
      LaterReflexive(got.sys.world);
      CheckAndWriteMade(got.sys.world, got.sys, p, ctx, key, got.result.value, change);
      MadeAppend(s, got.sys, out.sys);
      WriteIsReportedIffAnswered(got.sys, p, ctx, key, got.result.value, change);
    }
  }

  /** So an error does not mean that nothing was written: whatever object passes the check, losing one reply
      makes an applied rewrite look like a failure. */
  lemma LostReplyHidesAWrite(w: World, p: WritePolicy, ctx: Context, key: Key, change: Change)
    requires Valid(w) && !Done(ctx, w) && key in w.objects && key.kind == Target(change)
    requires CheckUpdate(p, w.objects[key].labels, w.objects[key].annotations).None?
    ensures KindOf(w.objects[key].body) == Target(change)
    ensures var s := Sys(w, [QUIET, Turn([], LostReply, true, true)]);
            var out := Rewrite(s, p, ctx, key, change);
            && out.err == Some(Api(Unavailable))
            && out.sys.world == Commit(w, Ours, key, Some(Apply(change, w.objects[key], w.now)))
  {
    hide Valid, CheckUpdate, Apply;
    KindOfStored(w, key);
    var lost := Turn([], LostReply, true, true);
    var s := Sys(w, [QUIET, lost]);
    assert s.script[1..] == [lost] && [lost][1..] == [];
    assert Arrive(s) == Sys(w, [lost]);
    assert Arrive(Sys(w, [lost])) == Sys(w, []);
  }

  lemma NodeNameMade(s: Sys, ctx: Context, opts: NodeOptions)
    requires Valid(s.world)
    ensures Extends(s, NodeNameOf(s, ctx, opts).sys) && Made(s, NodeNameOf(s, ctx, opts).sys) == []
  {
    MadeNothing(s, s);
    ArriveMade(s);
  }

  /** The one write of a creation, if any: a new object of the given body, without annotations. */
  ghost predicate CreatesOnce(
    p: WritePolicy, key: Key, body: Body, labels: Metadata, made: seq<Event>, err: Option<Error>)
  {
    && |made| <= 1
    && (made == [] ==> err.Some?)
    && (made != [] ==>
          && !p.readOnly
          && made[0].Write?
          && made[0].actor == Ours
          && made[0].key == key
          && made[0].before.None?
          && made[0].after.Some?
          && made[0].after.value.body == body
          && made[0].after.value.labels == labels
          && made[0].after.value.annotations == map[]
          && (err.None? || err == Some(Api(Unavailable))))
  }

  /** The body of the new Cluster says what was asked for, and nothing else. */
  ghost predicate IsClusterAsked(opts: CreateClusterOptions, body: Body) {
    && body.ClusterBody?
    && body.topology.Some?
    && body.topology.value.clusterClass == opts.clusterClass
    && body.topology.value.version == opts.version
    && body.topology.value.controlPlaneReplicas == Some(opts.controlPlaneReplicas)
    && body.topology.value.variables == opts.variables
    && body.topology.value.workers.Some?
    && AreWorkersAsked(opts.workers, body.topology.value.workers.value)
    && IsNetworkAsked(opts.network, body.network)
    && body.controlPlaneRef.None?
    && body.infrastructureKind.None?
    && !body.paused
    && body.status == ClusterStatus("", [], false, false)
  }

  ghost predicate AreWorkersAsked(specs: seq<WorkerSpec>, workers: seq<WorkerTopology>) {
    && |workers| == |specs|
    && forall i | 0 <= i < |specs| ::
         && workers[i].workerClass == specs[i].workerClass
         && workers[i].name == specs[i].name
         && workers[i].replicas == Some(specs[i].replicas)
         && workers[i].overrides == specs[i].variables
  }

  /** Ranges that are not given are unset. */
  ghost predicate IsNetworkAsked(spec: Option<NetworkSpec>, network: Option<ClusterNetwork>) {
    && (spec.None? <==> network.None?)
    && (spec.Some? && network.Some? ==>
          && (spec.value.pods == [] ==> network.value.pods.None?)
          && (spec.value.pods != [] ==> network.value.pods == Some(spec.value.pods))
          && (spec.value.services == [] ==> network.value.services.None?)
          && (spec.value.services != [] ==> network.value.services == Some(spec.value.services))
          && network.value.serviceDomain == spec.value.serviceDomain)
  }

  lemma NewClusterIsAsked(opts: CreateClusterOptions)
    ensures IsClusterAsked(opts, NewCluster(opts))
  {
  }

  /** The body of the new MachineDeployment says what was asked for: it selects the machines of its own template by
      its name, and they carry its cluster's name. */
  ghost predicate IsDeploymentAsked(opts: CreateDeploymentOptions, body: Body) {
    && body.DeploymentBody?
    && body.version == Some(opts.version)
    && body.replicas == Some(opts.replicas)
    && body.minReadySeconds == Some(opts.minReadySeconds)
    && body.nodeDrainTimeout == opts.nodeDrainTimeout
    && body.rolloutAfter.None?
    && body.template.clusterName == opts.clusterName
    && body.template.infrastructure == opts.infrastructure
    && body.template.bootstrap == opts.bootstrap
    && body.template.selector == map["machinedeployment" := opts.name]
    && body.template.labels.Keys ==
       {"machinedeployment", "cluster.x-k8s.io/cluster-name", "cluster.x-k8s.io/deployment-name"}
    && Read(body.template.labels, "machinedeployment") == opts.name
    && Read(body.template.labels, "cluster.x-k8s.io/cluster-name") == opts.clusterName
    && Read(body.template.labels, "cluster.x-k8s.io/deployment-name") == opts.name
  }

  lemma NewDeploymentIsAsked(opts: CreateDeploymentOptions)
    ensures IsDeploymentAsked(opts, NewDeployment(opts))
  {
    assert |DEPLOYMENT_SELECTOR| == 17 && |CLUSTER_NAME| == 29 && |DEPLOYMENT_NAME| == 32;
  }

  /** CreateCluster writes at most the one new Cluster asked for, never over an existing one, and only after it
      read the ClusterClass from the Cluster's own namespace. */
  lemma MakeClusterMade(s: Sys, p: WritePolicy, ctx: Context, opts: CreateClusterOptions)
    ensures var out := MakeCluster(s, p, ctx, opts);
            var made := Made(s, out.sys);
            && Extends(s, out.sys)
            && CreatesOnce(p, Key(Cluster, opts.namespace, opts.name), NewCluster(opts), map[], made, out.err)
            && (made != [] ==>
                  && Key(ClusterClass, opts.namespace, opts.clusterClass) in Arrive(s).world.objects
                  && IsClusterAsked(opts, made[0].after.value.body))
  {
    hide Made, Arrive, NewCluster, IsClusterAsked;
    NewClusterIsAsked(opts);
    MadeNothing(s, s);
    if CheckCreate(p).None? {
      var got := Get(s, ctx, Key(ClusterClass, opts.namespace, opts.clusterClass));
      ArriveMade(s);
      if got.result.Success? {
        CreateMade(got.sys, ctx, Key(Cluster, opts.namespace, opts.name), map[], NewCluster(opts));
        MadeAppend(s, got.sys, MakeCluster(s, p, ctx, opts).sys);
      }
    }
  }

  lemma MakeDeploymentMade(s: Sys, p: WritePolicy, ctx: Context, opts: CreateDeploymentOptions)
    ensures var out := MakeDeployment(s, p, ctx, opts);
            var made := Made(s, out.sys);
            && Extends(s, out.sys)
            && CreatesOnce(p, Key(MachineDeployment, opts.namespace, opts.name), NewDeployment(opts), opts.labels,
                           made, out.err)
            && (made != [] ==> IsDeploymentAsked(opts, made[0].after.value.body))
  {
    hide Made, Arrive, NewDeployment, IsDeploymentAsked;
    NewDeploymentIsAsked(opts);
    MadeNothing(s, s);
    if CheckCreate(p).None? {
      CreateMade(s, ctx, Key(MachineDeployment, opts.namespace, opts.name), opts.labels, NewDeployment(opts));
    }
  }
}
