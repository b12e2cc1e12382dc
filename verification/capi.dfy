/** The client: methods that fetch an object, ask the write policy, change the fetched copy and write it
    back, as separate requests (pkg/capi/client.go, pkg/capi/providers.go). */
module Capi {
  import opened Wrappers
  import opened Policy
  import opened Store
  import opened Changes
  import opened Interleaving

  /** Invalid stands for an argument or a state the method itself rejects. */
  datatype Error = Refused(refusal: Refusal) | Api(error: ApiError) | Invalid | TimedOut

  datatype Outcome = Outcome(sys: Sys, err: Option<Error>)

  /** The one kind of control plane object the client knows. */
  const KUBEADM_CONTROL_PLANE := "KubeadmControlPlane"

  function ErrorOf<T>(r: Result<T, ApiError>): Option<Error> {
    match r
    case Success(_) => None
    case Failure(error) => Some(Api(error))
  }

  /******* What the methods do, as functions of the world and its script *******/

  /** Get, check, change, Update. */
  function Rewrite(s: Sys, p: WritePolicy, ctx: Context, key: Key, change: Change): Outcome
    requires Valid(s.world) && key.kind == Target(change)
  {
    var got := Get(s, ctx, key);
    GetFollows(s, ctx, key);
    match got.result
    case Failure(error) => Outcome(got.sys, Some(Api(error)))
    case Success(o) => CheckAndWrite(got.sys, p, ctx, key, o, change)
  }

  /** The second half of a rewrite: o is the copy fetched or listed earlier. */
  function CheckAndWrite(s: Sys, p: WritePolicy, ctx: Context, key: Key, o: Object, change: Change): Outcome
    requires KindOf(o.body) == Target(change)
  {
    var refused := CheckUpdate(p, o.labels, o.annotations);
    if refused.Some? then Outcome(s, Some(Refused(refused.value)))
    else
      var put := Update(s, ctx, key, Apply(change, o, s.world.now));
      Outcome(put.sys, ErrorOf(put.result))
  }

  const HEALTH_CHECK_SUCCEEDED := "HealthCheckSucceeded"
  const CONTROL_PLANE_LABEL := "cluster.x-k8s.io/control-plane"

  predicate IsHealthy(machine: Object)
    requires machine.body.MachineBody?
  {
    exists i | 0 <= i < |machine.body.conditions| ::
      machine.body.conditions[i] == Condition(HEALTH_CHECK_SUCCEEDED, "True")
  }

  /** DeleteMachine's extra safety check, which force skips. */
  predicate UnsafeToDelete(machine: Object, force: bool)
    requires machine.body.MachineBody?
  {
    !force && (IsHealthy(machine) || CONTROL_PLANE_LABEL in machine.labels)
  }

  /** Get, check, Delete: force is looked at for Machines only. */
  function Erase(s: Sys, p: WritePolicy, ctx: Context, key: Key, force: bool): Outcome
    requires Valid(s.world)
  {
    var got := Get(s, ctx, key);
    GetFollows(s, ctx, key);
    match got.result
    case Failure(error) => Outcome(got.sys, Some(Api(error)))
    case Success(o) =>
      var refused := CheckDelete(p, o.labels, o.annotations);
      if refused.Some? then Outcome(got.sys, Some(Refused(refused.value)))
      else if o.body.MachineBody? && UnsafeToDelete(o, force) then Outcome(got.sys, Some(Invalid))
      else
        var deleted := Delete(got.sys, ctx, key);
        Outcome(deleted.sys, ErrorOf(deleted.result))
  }

  datatype CreateClusterOptions = CreateClusterOptions(
    namespace: string, name: string, clusterClass: string, version: string, controlPlaneReplicas: int,
    workers: seq<WorkerSpec>, variables: Metadata, network: Option<NetworkSpec>)

  datatype WorkerSpec = WorkerSpec(workerClass: string, name: string, replicas: int, variables: Metadata)

  datatype NetworkSpec = NetworkSpec(pods: seq<string>, services: seq<string>, serviceDomain: string)

  function WorkersOf(specs: seq<WorkerSpec>): (workers: seq<WorkerTopology>)
    ensures |workers| == |specs|
    ensures forall i | 0 <= i < |specs| ::
              workers[i] ==
              WorkerTopology(specs[i].workerClass, specs[i].name, Some(specs[i].replicas), specs[i].variables)
  {
    seq(|specs|, i requires 0 <= i < |specs| =>
      WorkerTopology(specs[i].workerClass, specs[i].name, Some(specs[i].replicas), specs[i].variables))
  }

  /** An empty list of ranges is left unset. */
  function RangesOf(blocks: seq<string>): Option<seq<string>> {
    if blocks == [] then None else Some(blocks)
  }

  function NetworkOf(spec: Option<NetworkSpec>): Option<ClusterNetwork> {
    match spec
    case None => None
    case Some(n) => Some(ClusterNetwork(RangesOf(n.pods), RangesOf(n.services), n.serviceDomain))
  }

  function NewCluster(opts: CreateClusterOptions): Body {
    var topology := Topology(opts.clusterClass, opts.version, Some(opts.controlPlaneReplicas),
                             Some(WorkersOf(opts.workers)), opts.variables);
    ClusterBody(Some(topology), None, None, false, NetworkOf(opts.network), ClusterStatus("", [], false, false))
  }

  function MakeCluster(s: Sys, p: WritePolicy, ctx: Context, opts: CreateClusterOptions): Outcome {
    var refused := CheckCreate(p);
    if refused.Some? then Outcome(s, Some(Refused(refused.value)))
    else
      var got := Get(s, ctx, Key(ClusterClass, opts.namespace, opts.clusterClass));
      if got.result.Failure? then Outcome(got.sys, Some(Api(got.result.error)))
      else
        var made := Create(got.sys, ctx, Key(Cluster, opts.namespace, opts.name), map[], NewCluster(opts));
        Outcome(made.sys, ErrorOf(made.result))
  }

  datatype CreateDeploymentOptions = CreateDeploymentOptions(
    namespace: string, name: string, version: string, replicas: int, minReadySeconds: int,
    nodeDrainTimeout: Option<int>, labels: Metadata, clusterName: string, infrastructure: Reference,
    bootstrap: Reference)

  const DEPLOYMENT_SELECTOR := "machinedeployment"
  const DEPLOYMENT_NAME := "cluster.x-k8s.io/deployment-name"

  function NewDeployment(opts: CreateDeploymentOptions): Body {
    DeploymentBody(Some(opts.version), Some(opts.replicas), Some(opts.minReadySeconds), opts.nodeDrainTimeout, None,
                   NewTemplate(opts))
  }

  /** A new MachineDeployment selects the machines of its own template, and they carry its cluster's name. */
  function NewTemplate(opts: CreateDeploymentOptions): (t: Template)
    ensures forall k | k in t.selector :: k in t.labels && t.labels[k] == t.selector[k]
    ensures Read(t.selector, DEPLOYMENT_SELECTOR) == opts.name
    ensures Read(t.labels, CLUSTER_NAME) == t.clusterName == opts.clusterName
  {
    assert |DEPLOYMENT_SELECTOR| == 17 && |CLUSTER_NAME| == 29 && |DEPLOYMENT_NAME| == 32;
    Template(opts.clusterName,
             map[DEPLOYMENT_SELECTOR := opts.name],
             map[DEPLOYMENT_SELECTOR := opts.name, CLUSTER_NAME := opts.clusterName, DEPLOYMENT_NAME := opts.name],
             opts.infrastructure, opts.bootstrap)
  }

  function MakeDeployment(s: Sys, p: WritePolicy, ctx: Context, opts: CreateDeploymentOptions): Outcome {
    var refused := CheckCreate(p);
    if refused.Some? then Outcome(s, Some(Refused(refused.value)))
    else
      var made := Create(s, ctx, Key(MachineDeployment, opts.namespace, opts.name), opts.labels, NewDeployment(opts));
      Outcome(made.sys, ErrorOf(made.result))
  }

  datatype NodeOptions = NodeOptions(
    namespace: string, machineName: string, nodeName: string,
    ignoreDaemonSets: bool, deleteLocalData: bool, force: bool, timeout: int, uncordon: bool)

  datatype NodeNameReply = NodeNameReply(sys: Sys, result: Result<string, Error>)

  function NodeNameOf(s: Sys, ctx: Context, opts: NodeOptions): (named: NodeNameReply)
    requires Valid(s.world)
    ensures Valid(named.sys.world)
  {
    if opts.nodeName != "" then NodeNameReply(s, Success(opts.nodeName))
    else if opts.machineName == "" then NodeNameReply(s, Failure(Invalid))
    else
      var key := Key(Machine, opts.namespace, opts.machineName);
      var got := Get(s, ctx, key);
      GetFollows(s, ctx, key);
      match got.result
      case Failure(error) => NodeNameReply(got.sys, Failure(Api(error)))
      case Success(machine) =>
        NodeNameReply(got.sys,
                      if machine.body.nodeRef.Some? then Success(machine.body.nodeRef.value) else Failure(Invalid))
  }

  function Cordon(s: Sys, p: WritePolicy, ctx: Context, opts: NodeOptions): Outcome
    requires Valid(s.world)
  {
    var named := NodeNameOf(s, ctx, opts);
    if named.result.Failure? then Outcome(named.sys, Some(named.result.error))
    else Rewrite(named.sys, p, ctx, Key(Node, "", named.result.value), SetUnschedulable(!opts.uncordon))
  }

  /******* Every method only moves the world forward *******/

  lemma CheckAndWriteFollows(s: Sys, p: WritePolicy, ctx: Context, key: Key, o: Object, change: Change)
    requires KindOf(o.body) == Target(change) == key.kind
    ensures Follows(s, CheckAndWrite(s, p, ctx, key, o, change).sys)
  {
    FollowsReflexive(s);
    UpdateFollows(s, ctx, key, Apply(change, o, s.world.now));
  }

  lemma RewriteFollows(s: Sys, p: WritePolicy, ctx: Context, key: Key, change: Change)
    requires Valid(s.world) && key.kind == Target(change)
    ensures Follows(s, Rewrite(s, p, ctx, key, change).sys)
  {
    var got := Get(s, ctx, key);
    GetFollows(s, ctx, key);
    if got.result.Success? {
      CheckAndWriteFollows(got.sys, p, ctx, key, got.result.value, change);
      FollowsTransitive(s, got.sys, Rewrite(s, p, ctx, key, change).sys);
    }
  }

  lemma EraseFollows(s: Sys, p: WritePolicy, ctx: Context, key: Key, force: bool)
    requires Valid(s.world)
    ensures Follows(s, Erase(s, p, ctx, key, force).sys)
  {
    var got := Get(s, ctx, key);
    GetFollows(s, ctx, key);
    DeleteFollows(got.sys, ctx, key);
    FollowsTransitive(s, got.sys, Delete(got.sys, ctx, key).sys);
  }

  lemma MakeClusterFollows(s: Sys, p: WritePolicy, ctx: Context, opts: CreateClusterOptions)
    ensures Follows(s, MakeCluster(s, p, ctx, opts).sys)
  {
    FollowsReflexive(s);
    var got := Get(s, ctx, Key(ClusterClass, opts.namespace, opts.clusterClass));
    GetFollows(s, ctx, Key(ClusterClass, opts.namespace, opts.clusterClass));
    var key := Key(Cluster, opts.namespace, opts.name);
    CreateFollows(got.sys, ctx, key, map[], NewCluster(opts));
    FollowsTransitive(s, got.sys, Create(got.sys, ctx, key, map[], NewCluster(opts)).sys);
  }

  lemma MakeDeploymentFollows(s: Sys, p: WritePolicy, ctx: Context, opts: CreateDeploymentOptions)
    ensures Follows(s, MakeDeployment(s, p, ctx, opts).sys)
  {
    FollowsReflexive(s);
    CreateFollows(s, ctx, Key(MachineDeployment, opts.namespace, opts.name), opts.labels, NewDeployment(opts));
  }

  lemma NodeNameOfFollows(s: Sys, ctx: Context, opts: NodeOptions)
    requires Valid(s.world)
    ensures Follows(s, NodeNameOf(s, ctx, opts).sys)
  {
    FollowsReflexive(s);
    GetFollows(s, ctx, Key(Machine, opts.namespace, opts.machineName));
  }

  lemma CordonFollows(s: Sys, p: WritePolicy, ctx: Context, opts: NodeOptions)
    requires Valid(s.world)
    ensures Follows(s, Cordon(s, p, ctx, opts).sys)
  {
    hide Follows, Valid;
    var named := NodeNameOf(s, ctx, opts);
    NodeNameOfFollows(s, ctx, opts);
    if named.result.Success? {
      var key := Key(Node, "", named.result.value);
      var cordoned := Rewrite(named.sys, p, ctx, key, SetUnschedulable(!opts.uncordon));
      RewriteFollows(named.sys, p, ctx, key, SetUnschedulable(!opts.uncordon));
      FollowsTransitive(s, named.sys, cordoned.sys);
    }
  }

  /******* The methods *******/

  class Client {
    const policy: WritePolicy
    var sys: Sys

    constructor (policy: WritePolicy, sys: Sys)
      ensures this.policy == policy && this.sys == sys
    {
      this.policy := policy;
      this.sys := sys;
    }

    ghost predicate Ready()
      reads this
    {
      Valid(sys.world)
    }

    /** Sends a Get. */
    method Fetch(ctx: Context, key: Key) returns (r: Result<Object, ApiError>)
      requires Ready()
      modifies this
      ensures Ready() && Reply(sys, r) == Get(old(sys), ctx, key)
      ensures r.Success? ==> KindOf(r.value.body) == key.kind
    {
      GetFollows(sys, ctx, key);
      var reply := Get(sys, ctx, key);
      sys := reply.sys;
      return reply.result;
    }

    /** Sends an Update. */
    method Store(ctx: Context, key: Key, o: Object) returns (err: Option<Error>)
      requires Ready() && KindOf(o.body) == key.kind != Pod
      modifies this
      ensures Ready() && var put := Update(old(sys), ctx, key, o); sys == put.sys && err == ErrorOf(put.result)
    {
      UpdateFollows(sys, ctx, key, o);
      var reply := Update(sys, ctx, key, o);
      sys := reply.sys;
      return ErrorOf(reply.result);
    }

    method PauseCluster(ctx: Context, namespace: string, name: string) returns (err: Option<Error>)
      requires Ready()
      modifies this
      ensures Ready()
      ensures Outcome(sys, err) == Rewrite(old(sys), policy, ctx, Key(Cluster, namespace, name), Pause)
    {
      var key := Key(Cluster, namespace, name);
      var got := Fetch(ctx, key);
      if got.Failure? { return Some(Api(got.error)); }
      var cluster := got.value;
      var refused := CheckUpdate(policy, cluster.labels, cluster.annotations);
      if refused.Some? { return Some(Refused(refused.value)); }
      cluster := cluster.(annotations := cluster.annotations[PAUSED := "true"]);
      err := Store(ctx, key, cluster);
    }

    method ResumeCluster(ctx: Context, namespace: string, name: string) returns (err: Option<Error>)
      requires Ready()
      modifies this
      ensures Ready()
      ensures Outcome(sys, err) == Rewrite(old(sys), policy, ctx, Key(Cluster, namespace, name), Resume)
    {
      var key := Key(Cluster, namespace, name);
      var got := Fetch(ctx, key);
      if got.Failure? { return Some(Api(got.error)); }
      var cluster := got.value;
      var refused := CheckUpdate(policy, cluster.labels, cluster.annotations);
      if refused.Some? { return Some(Refused(refused.value)); }
      cluster := cluster.(annotations := cluster.annotations - {PAUSED});
      err := Store(ctx, key, cluster);
    }

    method UpdateCluster(ctx: Context, namespace: string, name: string,
                         labels: Option<Metadata>, annotations: Option<Metadata>) returns (err: Option<Error>)
      requires Ready()
      modifies this
      ensures Ready()
      ensures Outcome(sys, err) ==
              Rewrite(old(sys), policy, ctx, Key(Cluster, namespace, name), Relabel(labels, annotations))
    {
      var key := Key(Cluster, namespace, name);
      var got := Fetch(ctx, key);
      if got.Failure? { return Some(Api(got.error)); }
      var cluster := got.value;
      var refused := CheckUpdate(policy, cluster.labels, cluster.annotations);
      if refused.Some? { return Some(Refused(refused.value)); }
      if labels.Some? {
        var patched := ApplyPatch(cluster.labels, labels.value);
        cluster := cluster.(labels := patched);
      }
      if annotations.Some? {
        var patched := ApplyPatch(cluster.annotations, annotations.value);
        cluster := cluster.(annotations := patched);
      }
      err := Store(ctx, key, cluster);
    }

    method RemediateMachine(ctx: Context, namespace: string, name: string) returns (err: Option<Error>)
      requires Ready()
      modifies this
      ensures Ready()
      ensures Outcome(sys, err) == Rewrite(old(sys), policy, ctx, Key(Machine, namespace, name), Remediate)
    {
      var key := Key(Machine, namespace, name);
      var got := Fetch(ctx, key);
      if got.Failure? { return Some(Api(got.error)); }
      var machine := got.value;
      var refused := CheckUpdate(policy, machine.labels, machine.annotations);
      if refused.Some? { return Some(Refused(refused.value)); }
      machine := machine.(annotations := machine.annotations[REMEDIATE := Decimal(sys.world.now / SECOND)]);
      assert machine == Apply(Remediate, got.value, sys.world.now);
      err := Store(ctx, key, machine);
    }

    /** The fields UpdateMachineDeployment sets on the fetched copy. */
    static method Reconfigure(fetched: Object, change: Change, ghost now: nat) returns (md: Object)
      requires fetched.body.DeploymentBody? && change.Configure?
      ensures md == Apply(change, fetched, now)
    {
      md := fetched;
      if change.newVersion.Some? { md := md.(body := md.body.(version := change.newVersion)); }
      if change.newReplicas.Some? { md := md.(body := md.body.(replicas := change.newReplicas)); }
      if change.minReadySeconds.Some? { md := md.(body := md.body.(minReadySeconds := change.minReadySeconds)); }
      if change.nodeDrainTimeout.Some? { md := md.(body := md.body.(nodeDrainTimeout := change.nodeDrainTimeout)); }
      if change.labels.Some? {
        var patched := ApplyPatch(md.labels, change.labels.value);
        md := md.(labels := patched);
      }
      if change.annotations.Some? {
        var patched := ApplyPatch(md.annotations, change.annotations.value);
        md := md.(annotations := patched);
      }
    }

    method UpdateMachineDeployment(ctx: Context, namespace: string, name: string, change: Change)
      returns (err: Option<Error>)
      requires Ready() && change.Configure?
      modifies this
      ensures Ready()
      ensures Outcome(sys, err) == Rewrite(old(sys), policy, ctx, Key(MachineDeployment, namespace, name), change)
    {
      var key := Key(MachineDeployment, namespace, name);
      var got := Fetch(ctx, key);
      if got.Failure? { return Some(Api(got.error)); }
      var md := got.value;
      var refused := CheckUpdate(policy, md.labels, md.annotations);
      if refused.Some? { return Some(Refused(refused.value)); }
      md := Reconfigure(md, change, sys.world.now);
      err := Store(ctx, key, md);
    }

    method RolloutMachineDeployment(ctx: Context, namespace: string, name: string, reason: string)
      returns (err: Option<Error>)
      requires Ready()
      modifies this
      ensures Ready()
      ensures Outcome(sys, err) ==
              Rewrite(old(sys), policy, ctx, Key(MachineDeployment, namespace, name), Rollout(reason))
    {
      var key := Key(MachineDeployment, namespace, name);
      var got := Fetch(ctx, key);
      if got.Failure? { return Some(Api(got.error)); }
      var md := got.value;
      var refused := CheckUpdate(policy, md.labels, md.annotations);
      if refused.Some? { return Some(Refused(refused.value)); }
      md := md.(body := md.body.(rolloutAfter := Some(sys.world.now / SECOND)));
      if reason != "" {
        md := md.(annotations := md.annotations[ROLLOUT_REASON := reason]);
      }
      assert md == Apply(Rollout(reason), got.value, sys.world.now);
      err := Store(ctx, key, md);
    }

    method DeleteCluster(ctx: Context, namespace: string, name: string) returns (err: Option<Error>)
      requires Ready()
      modifies this
      ensures Ready()
      ensures Outcome(sys, err) == Erase(old(sys), policy, ctx, Key(Cluster, namespace, name), false)
    {
      var key := Key(Cluster, namespace, name);
      var got := Fetch(ctx, key);
      if got.Failure? { return Some(Api(got.error)); }
      var refused := CheckDelete(policy, got.value.labels, got.value.annotations);
      if refused.Some? { return Some(Refused(refused.value)); }
      DeleteFollows(sys, ctx, key);
      var deleted := Delete(sys, ctx, key);
      sys := deleted.sys;
      return ErrorOf(deleted.result);
    }

    method DeleteMachine(ctx: Context, namespace: string, name: string, force: bool) returns (err: Option<Error>)
      requires Ready()
      modifies this
      ensures Ready()
      ensures Outcome(sys, err) == Erase(old(sys), policy, ctx, Key(Machine, namespace, name), force)
    {
      var key := Key(Machine, namespace, name);
      var got := Fetch(ctx, key);
      if got.Failure? { return Some(Api(got.error)); }
      var machine := got.value;
      var refused := CheckDelete(policy, machine.labels, machine.annotations);
      if refused.Some? { return Some(Refused(refused.value)); }
      if !force {
        var i := 0;
        while i < |machine.body.conditions|
          invariant i <= |machine.body.conditions|
          invariant forall j | 0 <= j < i ::
                      machine.body.conditions[j] != Condition(HEALTH_CHECK_SUCCEEDED, "True")
        {
          if machine.body.conditions[i] == Condition(HEALTH_CHECK_SUCCEEDED, "True") { return Some(Invalid); }
          i := i + 1;
        }
        if CONTROL_PLANE_LABEL in machine.labels { return Some(Invalid); }
      }
      DeleteFollows(sys, ctx, key);
      var deleted := Delete(sys, ctx, key);
      sys := deleted.sys;
      return ErrorOf(deleted.result);
    }

    /** The loop over the requested MachineDeployments. */
    static method BuildWorkers(specs: seq<WorkerSpec>) returns (workers: seq<WorkerTopology>)
      ensures workers == WorkersOf(specs)
    {
      workers := [];
      var i := 0;
      while i < |specs|
        invariant i <= |specs| && workers == WorkersOf(specs[..i])
      {
        var md := specs[i];
        workers := workers + [WorkerTopology(md.workerClass, md.name, Some(md.replicas), md.variables)];
        i := i + 1;
      }
      assert specs[..i] == specs;
    }

    method CreateCluster(ctx: Context, opts: CreateClusterOptions) returns (err: Option<Error>)
      requires Ready()
      modifies this
      ensures Ready()
      ensures Outcome(sys, err) == MakeCluster(old(sys), policy, ctx, opts)
    {
      var refused := CheckCreate(policy);
      if refused.Some? { return Some(Refused(refused.value)); }
      var got := Fetch(ctx, Key(ClusterClass, opts.namespace, opts.clusterClass));
      if got.Failure? { return Some(Api(got.error)); }
      var workers := BuildWorkers(opts.workers);
      var topology :=
        Topology(opts.clusterClass, opts.version, Some(opts.controlPlaneReplicas), Some(workers), opts.variables);
      var network := None;
      if opts.network.Some? {
        var n := opts.network.value;
        network := Some(ClusterNetwork(if n.pods != [] then Some(n.pods) else None,
                                       if n.services != [] then Some(n.services) else None, n.serviceDomain));
      }
      var body := ClusterBody(Some(topology), None, None, false, network, ClusterStatus("", [], false, false));
      assert body == NewCluster(opts);
      CreateFollows(sys, ctx, Key(Cluster, opts.namespace, opts.name), map[], body);
      var made := Create(sys, ctx, Key(Cluster, opts.namespace, opts.name), map[], body);
      sys := made.sys;
      return ErrorOf(made.result);
    }

    method CreateMachineDeployment(ctx: Context, opts: CreateDeploymentOptions) returns (err: Option<Error>)
      requires Ready()
      modifies this
      ensures Ready()
      ensures Outcome(sys, err) == MakeDeployment(old(sys), policy, ctx, opts)
    {
      var refused := CheckCreate(policy);
      if refused.Some? { return Some(Refused(refused.value)); }
      var key := Key(MachineDeployment, opts.namespace, opts.name);
      CreateFollows(sys, ctx, key, opts.labels, NewDeployment(opts));
      var made := Create(sys, ctx, key, opts.labels, NewDeployment(opts));
      sys := made.sys;
      return ErrorOf(made.result);
    }

    /** resolveNodeName. */
    method ResolveNodeName(ctx: Context, opts: NodeOptions) returns (r: Result<string, Error>)
      requires Ready()
      modifies this
      ensures Ready() && NodeNameReply(sys, r) == NodeNameOf(old(sys), ctx, opts)
    {
      if opts.nodeName != "" { return Success(opts.nodeName); }
      if opts.machineName == "" { return Failure(Invalid); }
      var got := Fetch(ctx, Key(Machine, opts.namespace, opts.machineName));
      if got.Failure? { return Failure(Api(got.error)); }
      if got.value.body.nodeRef.None? { return Failure(Invalid); }
      return Success(got.value.body.nodeRef.value);
    }

    /** setUnschedulable. */
    method SetNodeUnschedulable(ctx: Context, nodeName: string, unschedulable: bool) returns (err: Option<Error>)
      requires Ready()
      modifies this
      ensures Ready()
      ensures Outcome(sys, err) ==
              Rewrite(old(sys), policy, ctx, Key(Node, "", nodeName), SetUnschedulable(unschedulable))
    {
      var key := Key(Node, "", nodeName);
      var got := Fetch(ctx, key);
      if got.Failure? { return Some(Api(got.error)); }
      var node := got.value;
      var refused := CheckUpdate(policy, node.labels, node.annotations);
      if refused.Some? { return Some(Refused(refused.value)); }
      node := node.(body := node.body.(unschedulable := unschedulable));
      assert node == Apply(SetUnschedulable(unschedulable), got.value, sys.world.now);
      err := Store(ctx, key, node);
    }

    method CordonNode(ctx: Context, opts: NodeOptions) returns (err: Option<Error>)
      requires Ready()
      modifies this
      ensures Ready()
      ensures Outcome(sys, err) == Cordon(old(sys), policy, ctx, opts)
    {
      var named := ResolveNodeName(ctx, opts);
      if named.Failure? { return Some(named.error); }
      err := SetNodeUnschedulable(ctx, named.value, !opts.uncordon);
    }
  }
}
