/** Scaling: through the topology for a ClusterClass cluster, by a direct write otherwise
    (pkg/capi/providers.go). */
module Scaling {
  import opened Wrappers
  import opened Policy
  import opened Store
  import opened Interleaving
  import opened Footprint
  import opened Changes
  import opened Capi
  import opened Gated

  const MAX_INT32 := 2147483647
  const CONTROL_PLANE := "controlplane"
  const WORKERS := "workers"
  const TOPOLOGY_NAME_LABEL := "topology.cluster.x-k8s.io/deployment-name"

  datatype ScaleOptions =
    ScaleOptions(namespace: string, name: string, target: string, replicas: int, deployment: string)

  /** The topology name an argument stands for: the label of the MachineDeployment of that name, if it can be
      read and has one. */
  function TopologyName(md: Result<Object, ApiError>, argument: string): string {
    if md.Success? && Read(md.value.labels, TOPOLOGY_NAME_LABEL) != "" then md.value.labels[TOPOLOGY_NAME_LABEL]
    else argument
  }

  /** The index of the first entry of that name, or the number of entries. */
  function FirstNamed(workers: seq<WorkerTopology>, name: string): (i: nat)
    ensures i <= |workers|
    ensures i < |workers| ==> workers[i].name == name
    ensures forall j | 0 <= j < i :: workers[j].name != name
  {
    if workers == [] || workers[0].name == name then 0 else 1 + FirstNamed(workers[1..], name)
  }

  /** The entries with the replicas of the first one of that name replaced. */
  function WithReplicas(workers: seq<WorkerTopology>, name: string, replicas: int): Option<seq<WorkerTopology>> {
    var i := FirstNamed(workers, name);
    if i == |workers| then None else Some(workers[i := workers[i].(replicas := Some(replicas))])
  }

  /** The topology to write, once the target is known to be good. */
  function ScaledTopology(topology: Topology, opts: ScaleOptions, md: Result<Object, ApiError>): Option<Topology> {
    if opts.target == CONTROL_PLANE then Some(topology.(controlPlaneReplicas := Some(opts.replicas)))
    else if topology.workers.None? then None
    else
      match WithReplicas(topology.workers.value, TopologyName(md, opts.deployment), opts.replicas)
      case None => None
      case Some(workers) => Some(topology.(workers := Some(workers)))
  }

  function ScaleTopology(s: Sys, p: WritePolicy, ctx: Context, key: Key, cluster: Object, opts: ScaleOptions): Outcome
    requires cluster.body.ClusterBody? && cluster.body.topology.Some?
  {
    var topology := cluster.body.topology.value;
    var refused := CheckUpdate(p, cluster.labels, cluster.annotations);
    if refused.Some? then Outcome(s, Some(Refused(refused.value)))
    else if opts.target == CONTROL_PLANE then
      CheckAndWrite(s, p, ctx, key, cluster, SetTopology(topology.(controlPlaneReplicas := Some(opts.replicas))))
    else if opts.target != WORKERS || opts.deployment == "" || topology.workers.None? then Outcome(s, Some(Invalid))
    else
      var md := Get(s, ctx, Key(MachineDeployment, opts.namespace, opts.deployment));
      var scaled := ScaledTopology(topology, opts, md.result);
      if scaled.None? then Outcome(md.sys, Some(Invalid))
      else CheckAndWrite(md.sys, p, ctx, key, cluster, SetTopology(scaled.value))
  }

  function ScaleDirectly(s: Sys, p: WritePolicy, ctx: Context, opts: ScaleOptions): Outcome
    requires Valid(s.world)
  {
    if opts.target == CONTROL_PLANE then
      Rewrite(s, p, ctx, Key(KubeadmControlPlane, opts.namespace, opts.name), ScaleControlPlane(opts.replicas))
    else if opts.target != WORKERS || opts.deployment == "" then Outcome(s, Some(Invalid))
    else
      Rewrite(s, p, ctx, Key(MachineDeployment, opts.namespace, opts.deployment), ScaleDeployment(opts.replicas))
  }

  function ScaleOutcome(s: Sys, p: WritePolicy, ctx: Context, opts: ScaleOptions): Outcome
    requires Valid(s.world)
  {
    if opts.replicas < 0 || opts.replicas > MAX_INT32 then Outcome(s, Some(Invalid))
    else
      var key := Key(Cluster, opts.namespace, opts.name);
      var got := Get(s, ctx, key);
      GetFollows(s, ctx, key);
      match got.result
      case Failure(error) => Outcome(got.sys, Some(Api(error)))
      case Success(cluster) =>
        if cluster.body.topology.Some? then ScaleTopology(got.sys, p, ctx, key, cluster, opts)
        else ScaleDirectly(got.sys, p, ctx, opts)
  }

  /******* The methods *******/

  /** resolveMachineDeploymentTopologyName. */
  method ResolveTopologyName(c: Client, ctx: Context, namespace: string, argument: string) returns (name: string)
    requires c.Ready()
    modifies c
    ensures c.Ready()
    ensures var md := Get(old(c.sys), ctx, Key(MachineDeployment, namespace, argument));
            c.sys == md.sys && name == TopologyName(md.result, argument)
  {
    var md := c.Fetch(ctx, Key(MachineDeployment, namespace, argument));
    if md.Failure? { return argument; }
    if TOPOLOGY_NAME_LABEL in md.value.labels && md.value.labels[TOPOLOGY_NAME_LABEL] != "" {
      return md.value.labels[TOPOLOGY_NAME_LABEL];
    }
    return argument;
  }

  /** The search loop of scaleClusterTopology. */
  method SetWorkerReplicas(workers: seq<WorkerTopology>, name: string, replicas: int)
    returns (scaled: seq<WorkerTopology>, found: bool)
    ensures WithReplicas(workers, name, replicas) == if found then Some(scaled) else None
  {
    scaled, found := workers, false;
    var i := 0;
    while i < |workers|
      invariant i <= |workers| && scaled == workers
      invariant forall j | 0 <= j < i :: workers[j].name != name
    {
      if workers[i].name == name {
        return workers[i := workers[i].(replicas := Some(replicas))], true;
      }
      i := i + 1;
    }
    return workers, false;
  }

  method ScaleClusterTopology(c: Client, ctx: Context, key: Key, cluster: Object, opts: ScaleOptions)
    returns (err: Option<Error>)
    requires c.Ready() && key.kind == Cluster && cluster.body.ClusterBody? && cluster.body.topology.Some?
    modifies c
    ensures c.Ready()
    ensures Outcome(c.sys, err) == ScaleTopology(old(c.sys), c.policy, ctx, key, cluster, opts)
  {
    hide Valid;
    var refused := CheckUpdate(c.policy, cluster.labels, cluster.annotations);
    if refused.Some? { return Some(Refused(refused.value)); }
    var topology := cluster.body.topology.value;
    if opts.target == CONTROL_PLANE {
      topology := topology.(controlPlaneReplicas := Some(opts.replicas));
    } else if opts.target == WORKERS {
      if opts.deployment == "" { return Some(Invalid); }
      if topology.workers.None? { return Some(Invalid); }
      var name := ResolveTopologyName(c, ctx, opts.namespace, opts.deployment);
      var workers, found := SetWorkerReplicas(topology.workers.value, name, opts.replicas);
      if !found { return Some(Invalid); }
      topology := topology.(workers := Some(workers));
    } else {
      return Some(Invalid);
    }
    err := c.Store(ctx, key, cluster.(body := cluster.body.(topology := Some(topology))));
  }

  method ScaleControlPlaneObject(c: Client, ctx: Context, namespace: string, name: string, replicas: int)
    returns (err: Option<Error>)
    requires c.Ready()
    modifies c
    ensures c.Ready()
    ensures Outcome(c.sys, err) ==
            Rewrite(old(c.sys), c.policy, ctx, Key(KubeadmControlPlane, namespace, name), ScaleControlPlane(replicas))
  {
    var key := Key(KubeadmControlPlane, namespace, name);
    var got := c.Fetch(ctx, key);
    if got.Failure? { return Some(Api(got.error)); }
    var kcp := got.value;
    var refused := CheckUpdate(c.policy, kcp.labels, kcp.annotations);
    if refused.Some? { return Some(Refused(refused.value)); }
    kcp := kcp.(body := kcp.body.(kcpReplicas := Some(replicas)));
    assert kcp == Apply(ScaleControlPlane(replicas), got.value, c.sys.world.now);
    err := c.Store(ctx, key, kcp);
  }

  method ScaleMachineDeployment(c: Client, ctx: Context, namespace: string, name: string, replicas: int)
    returns (err: Option<Error>)
    requires c.Ready()
    modifies c
    ensures c.Ready()
    ensures Outcome(c.sys, err) ==
            Rewrite(old(c.sys), c.policy, ctx, Key(MachineDeployment, namespace, name), ScaleDeployment(replicas))
  {
    var key := Key(MachineDeployment, namespace, name);
    var got := c.Fetch(ctx, key);
    if got.Failure? { return Some(Api(got.error)); }
    var md := got.value;
    var refused := CheckUpdate(c.policy, md.labels, md.annotations);
    if refused.Some? { return Some(Refused(refused.value)); }
    md := md.(body := md.body.(replicas := Some(replicas)));
    assert md == Apply(ScaleDeployment(replicas), got.value, c.sys.world.now);
    err := c.Store(ctx, key, md);
  }

  method ScaleCluster(c: Client, ctx: Context, opts: ScaleOptions) returns (err: Option<Error>)
    requires c.Ready()
    modifies c
    ensures c.Ready()
    ensures Outcome(c.sys, err) == ScaleOutcome(old(c.sys), c.policy, ctx, opts)
  {
    if opts.replicas < 0 || opts.replicas > MAX_INT32 { return Some(Invalid); }
    var key := Key(Cluster, opts.namespace, opts.name);
    var got := c.Fetch(ctx, key);
    hide Valid;
    if got.Failure? { return Some(Api(got.error)); }
    if got.value.body.topology.Some? {
      err := ScaleClusterTopology(c, ctx, key, got.value, opts);
      return err;
    }
    if opts.target == CONTROL_PLANE {
      err := ScaleControlPlaneObject(c, ctx, opts.namespace, opts.name, opts.replicas);
    } else if opts.target == WORKERS {
      if opts.deployment == "" { return Some(Invalid); }
      err := ScaleMachineDeployment(c, ctx, opts.namespace, opts.deployment, opts.replicas);
    } else {
      return Some(Invalid);
    }
  }

  /******* One field *******/

  /** The worker entry the argument stands for: the label of the MachineDeployment of that name, if the server
      answered the request for it from w and it has one, and otherwise the argument itself. */
  ghost predicate StandsFor(w: World, answered: bool, opts: ScaleOptions, name: string) {
    var key := Key(MachineDeployment, opts.namespace, opts.deployment);
    var labelled := if !answered || key !in w.objects then ""
                    else Read(w.objects[key].labels, "topology.cluster.x-k8s.io/deployment-name");
    name == if labelled != "" then labelled else opts.deployment
  }

  /** after is before with exactly one replica count changed: the control plane's or one worker's, in the
      topology of the cluster or directly. */
  ghost predicate SetsOneReplicaField(w: World, answered: bool, opts: ScaleOptions, before: Object, after: Object) {
    match before.body
    case ControlPlaneBody(_, _) =>
      opts.target == "controlplane" &&
      after == before.(rv := after.rv, body := before.body.(kcpReplicas := Some(opts.replicas)))
    case DeploymentBody(_, _, _, _, _, _) =>
      opts.target == "workers" &&
      after == before.(rv := after.rv, body := before.body.(replicas := Some(opts.replicas)))
    case ClusterBody(Some(topology), _, _, _, _, _) =>
      after.body.ClusterBody? && after.body.topology.Some? &&
      after == before.(rv := after.rv, body := before.body.(topology := after.body.topology)) &&
      (if opts.target == "controlplane" then
         after.body.topology.value == topology.(controlPlaneReplicas := Some(opts.replicas))
       else
         && opts.target == "workers"
         && topology.workers.Some?
         && exists i, name ::
              && StandsFor(w, answered, opts, name)
              && i == FirstNamed(topology.workers.value, name) < |topology.workers.value|
              && after.body.topology.value == topology.(workers :=
                   Some(topology.workers.value[i := topology.workers.value[i].(replicas := Some(opts.replicas))])))
    case _ => false
  }

  lemma ScaledTopologyIsOneField(w: World, s: Sys, ctx: Context, opts: ScaleOptions, cluster: Object, now: nat)
    requires w == Arrive(s).world
    requires cluster.body.ClusterBody? && cluster.body.topology.Some? && opts.target == WORKERS
    requires cluster.body.topology.value.workers.Some?
    requires var md := Get(s, ctx, Key(MachineDeployment, opts.namespace, opts.deployment));
             ScaledTopology(cluster.body.topology.value, opts, md.result).Some?
    ensures var md := Get(s, ctx, Key(MachineDeployment, opts.namespace, opts.deployment));
            var change := SetTopology(ScaledTopology(cluster.body.topology.value, opts, md.result).value);
            SetsOneReplicaField(w, Answers(ctx, s), opts, cluster, Apply(change, cluster, now))
  {
    var md := Get(s, ctx, Key(MachineDeployment, opts.namespace, opts.deployment));
    var name := TopologyName(md.result, opts.deployment);
    assert StandsFor(w, Answers(ctx, s), opts, name);
    assert |CONTROL_PLANE| != |WORKERS|;
    var workers := cluster.body.topology.value.workers.value;
    var i := FirstNamed(workers, name);
    assert i < |workers|;
  }

  /** What is scaled without a topology. */
  function DirectKey(opts: ScaleOptions): Key {
    if opts.target == CONTROL_PLANE then Key(KubeadmControlPlane, opts.namespace, opts.name)
    else Key(MachineDeployment, opts.namespace, opts.deployment)
  }

  /** The request that writes: after the Get of the Cluster and, unless that is all it takes, one more Get. */
  function ScaleRequest(s: Sys, opts: ScaleOptions): Sys {
    var key, w := Key(Cluster, opts.namespace, opts.name), Arrive(s).world;
    if && opts.target == CONTROL_PLANE
       && key in w.objects
       && w.objects[key].body.ClusterBody?
       && w.objects[key].body.topology.Some?
    then Arrive(s) else Arrive(Arrive(s))
  }

  /** ScaleCluster writes at most once and then changes exactly one replica count, to a value in int32 range. A
      cluster with a topology is scaled through the Cluster object alone. An error means that nothing was written,
      except that an applied write reports success if and only if its reply arrived. */
  lemma ScaleTouchesOneField(s: Sys, p: WritePolicy, ctx: Context, opts: ScaleOptions)
    requires Valid(s.world)
    ensures var out := ScaleOutcome(s, p, ctx, opts);
            var made := Made(s, out.sys);
            var key := Key(Cluster, opts.namespace, opts.name);
            && Extends(s, out.sys)
            && |made| <= 1
            && (made == [] ==> out.err.Some?)
            && (made != [] ==>
                  && IsGatedUpdate(p, made[0])
                  && 0 <= opts.replicas <= 2147483647
                  && SetsOneReplicaField(Arrive(Arrive(s)).world, Answers(ctx, Arrive(s)), opts,
                                         made[0].before.value, made[0].after.value)
                  && key in Arrive(s).world.objects
                  && Arrive(s).world.objects[key].body.ClusterBody?
                  && made[0].key == (if Arrive(s).world.objects[key].body.topology.Some? then key
                                     else if opts.target == "controlplane" then
                                       Key(KubeadmControlPlane, opts.namespace, opts.name)
                                     else Key(MachineDeployment, opts.namespace, opts.deployment))
                  && (out.err.None? || out.err == Some(Api(Unavailable)))
                  && (out.err.None? <==> Head(ScaleRequest(s, opts)).fault == Delivered))
  {
    hide Valid, Follows, Later, SetsOneReplicaField, CheckUpdate, Made, ScaleTopology, ScaleDirectly;
    MadeNothing(s, s);
    var key := Key(Cluster, opts.namespace, opts.name);
    var got := Get(s, ctx, key);
    GetFollows(s, ctx, key);
    FollowsGives(s, got.sys);
    ArriveMade(s);
    if 0 <= opts.replicas <= MAX_INT32 && got.result.Success? {
      KindOfStored(got.sys.world, key);
      if got.result.value.body.topology.Some? {
        ScaleTopologyMade(got.sys, p, ctx, key, got.result.value, opts);
        var out := ScaleTopology(got.sys, p, ctx, key, got.result.value, opts);
        MadeAppend(s, got.sys, out.sys);
        assert Made(s, out.sys) == Made(got.sys, out.sys);
      } else {
        ScaleDirectlyMade(got.sys, p, ctx, opts);
        var out := ScaleDirectly(got.sys, p, ctx, opts);
        MadeAppend(s, got.sys, out.sys);
        assert Made(s, out.sys) == Made(got.sys, out.sys);
      }
    }
  }

  lemma ScaleDirectlyMade(s: Sys, p: WritePolicy, ctx: Context, opts: ScaleOptions)
    requires Valid(s.world)
    ensures var out := ScaleDirectly(s, p, ctx, opts);
            var made := Made(s, out.sys);
            && Extends(s, out.sys)
            && |made| <= 1
            && (made == [] ==> out.err.Some?)
            && (made != [] ==>
                  && IsGatedUpdate(p, made[0])
                  && made[0].key == DirectKey(opts)
                  && SetsOneReplicaField(Arrive(s).world, Answers(ctx, s), opts,
                                         made[0].before.value, made[0].after.value)
                  && (out.err.None? || out.err == Some(Api(Unavailable)))
                  && (out.err.None? <==> Head(Arrive(s)).fault == Delivered))
  {
    hide Valid;
    MadeNothing(s, s);
    if opts.target == CONTROL_PLANE {
      RewriteMade(s, p, ctx, DirectKey(opts), ScaleControlPlane(opts.replicas));
      if Made(s, ScaleDirectly(s, p, ctx, opts).sys) != [] {
        AppliedIsReportedIffAnswered(s, p, ctx, DirectKey(opts), ScaleControlPlane(opts.replicas));
      }
    } else if opts.target == WORKERS && opts.deployment != "" {
      RewriteMade(s, p, ctx, DirectKey(opts), ScaleDeployment(opts.replicas));
      if Made(s, ScaleDirectly(s, p, ctx, opts).sys) != [] {
        AppliedIsReportedIffAnswered(s, p, ctx, DirectKey(opts), ScaleDeployment(opts.replicas));
      }
    }
  }

  lemma ScaleTopologyMade(s: Sys, p: WritePolicy, ctx: Context, key: Key, cluster: Object, opts: ScaleOptions)
    requires Valid(s.world) && key.kind == Cluster
    requires key in s.world.objects && s.world.objects[key] == cluster
    requires cluster.body.ClusterBody? && cluster.body.topology.Some?
    ensures var out := ScaleTopology(s, p, ctx, key, cluster, opts);
            var made := Made(s, out.sys);
            && Extends(s, out.sys)
            && Follows(s, out.sys)
            && |made| <= 1
            && (made == [] ==> out.err.Some?)
            && (made != [] ==>
                  && IsGatedUpdate(p, made[0])
                  && made[0].key == key
                  && SetsOneReplicaField(Arrive(s).world, Answers(ctx, s), opts,
                                         made[0].before.value, made[0].after.value)
                  && (out.err.None? || out.err == Some(Api(Unavailable)))
                  && (out.err.None? <==>
                        Head(if opts.target == CONTROL_PLANE then s else Arrive(s)).fault == Delivered))
  {
    hide Valid, Follows, Later, Made, Update, Extends, Recorded, CheckAndWrite, CheckUpdate, WithReplicas;
    MadeNothing(s, s);
    FollowsReflexive(s);
    var topology := cluster.body.topology.value;
    if CheckUpdate(p, cluster.labels, cluster.annotations).None? {
      if opts.target == CONTROL_PLANE {
        var change := SetTopology(topology.(controlPlaneReplicas := Some(opts.replicas)));
        LaterReflexive(s.world);
        CheckAndWriteMade(s.world, s, p, ctx, key, cluster, change);
        if Made(s, CheckAndWrite(s, p, ctx, key, cluster, change).sys) != [] {
          WriteIsReportedIffAnswered(s, p, ctx, key, cluster, change);
        }
        CheckAndWriteFollows(s, p, ctx, key, cluster, change);
      } else if opts.target == WORKERS && opts.deployment != "" && topology.workers.Some? {
        var md := Get(s, ctx, Key(MachineDeployment, opts.namespace, opts.deployment));
        GetFollows(s, ctx, Key(MachineDeployment, opts.namespace, opts.deployment));
        FollowsGives(s, md.sys);
        ArriveMade(s);
        var scaled := ScaledTopology(topology, opts, md.result);
        if scaled.Some? {
          var out := CheckAndWrite(md.sys, p, ctx, key, cluster, SetTopology(scaled.value));
          CheckAndWriteMade(s.world, md.sys, p, ctx, key, cluster, SetTopology(scaled.value));
          if Made(md.sys, out.sys) != [] {
            WriteIsReportedIffAnswered(md.sys, p, ctx, key, cluster, SetTopology(scaled.value));
          }
          CheckAndWriteFollows(md.sys, p, ctx, key, cluster, SetTopology(scaled.value));
          FollowsTransitive(s, md.sys, out.sys);
          ScaledTopologyIsOneField(Arrive(s).world, s, ctx, opts, cluster, md.sys.world.now);
          MadeAppend(s, md.sys, out.sys);
          assert Made(s, out.sys) == Made(md.sys, out.sys);
        }
      }
    }
  }

  lemma ScaleFollows(s: Sys, p: WritePolicy, ctx: Context, opts: ScaleOptions)
    requires Valid(s.world)
    ensures Follows(s, ScaleOutcome(s, p, ctx, opts).sys)
  {
    hide Valid, Follows, ScaleTopology, Rewrite, CheckUpdate, Made, SetsOneReplicaField;
    FollowsReflexive(s);
    var key := Key(Cluster, opts.namespace, opts.name);
    var got := Get(s, ctx, key);
    GetFollows(s, ctx, key);
    FollowsGives(s, got.sys);
    if 0 <= opts.replicas <= MAX_INT32 && got.result.Success? {
      KindOfStored(got.sys.world, key);
      var out := ScaleOutcome(s, p, ctx, opts);
      FollowsReflexive(got.sys);
      if got.result.value.body.topology.Some? {
        ScaleTopologyMade(got.sys, p, ctx, key, got.result.value, opts);
      } else if opts.target == CONTROL_PLANE {
        RewriteFollows(got.sys, p, ctx, DirectKey(opts), ScaleControlPlane(opts.replicas));
      } else if opts.target == WORKERS && opts.deployment != "" {
        RewriteFollows(got.sys, p, ctx, DirectKey(opts), ScaleDeployment(opts.replicas));
      }
      FollowsTransitive(s, got.sys, out.sys);
    }
  }
}
