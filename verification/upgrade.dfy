/** Upgrading a cluster: the control plane, then every MachineDeployment with a version, each a write of its
    own (pkg/capi/client.go, UpgradeCluster). */
module Upgrade {
  import opened Wrappers
  import opened Policy
  import opened Store
  import opened Interleaving
  import opened Changes
  import opened Capi

  datatype UpgradeOptions = UpgradeOptions(namespace: string, name: string, target: string, workers: bool)

  predicate AreDeployments(items: seq<Item>) {
    forall i | 0 <= i < |items| :: items[i].state.body.DeploymentBody? && items[i].key.kind == MachineDeployment
  }

  /** The control plane step: nothing without a reference, an error for an unknown kind. */
  function UpgradeControlPlane(s: Sys, p: WritePolicy, ctx: Context, cluster: Object, target: string): Outcome
    requires Valid(s.world) && cluster.body.ClusterBody?
  {
    var ref := cluster.body.controlPlaneRef;
    if ref.None? then Outcome(s, None)
    else if ref.value.kind != KUBEADM_CONTROL_PLANE then Outcome(s, Some(Invalid))
    else
      Rewrite(s, p, ctx, Key(KubeadmControlPlane, ref.value.namespace, ref.value.name), SetControlPlaneVersion(target))
  }

  function UpgradeWorkers(s: Sys, p: WritePolicy, ctx: Context, items: seq<Item>, target: string): Outcome
    requires AreDeployments(items)
    decreases |items|
  {
    if items == [] then Outcome(s, None)
    else if items[0].state.body.version.None? then UpgradeWorkers(s, p, ctx, items[1..], target)
    else
      var one := CheckAndWrite(s, p, ctx, items[0].key, items[0].state, SetDeploymentVersion(target));
      if one.err.Some? then one else UpgradeWorkers(one.sys, p, ctx, items[1..], target)
  }

  function DeploymentsOf(opts: UpgradeOptions): Query {
    Query(MachineDeployment, opts.namespace, opts.name, "")
  }

  function UpgradeOutcome(s: Sys, p: WritePolicy, ctx: Context, opts: UpgradeOptions): Outcome
    requires Valid(s.world)
  {
    var key := Key(Cluster, opts.namespace, opts.name);
    var got := Get(s, ctx, key);
    GetFollows(s, ctx, key);
    match got.result
    case Failure(error) => Outcome(got.sys, Some(Api(error)))
    case Success(cluster) =>
      var refused := CheckUpdate(p, cluster.labels, cluster.annotations);
      if refused.Some? then Outcome(got.sys, Some(Refused(refused.value)))
      else
        var plane := UpgradeControlPlane(got.sys, p, ctx, cluster, opts.target);
        UpgradeControlPlaneFollows(got.sys, p, ctx, cluster, opts.target);
        if plane.err.Some? || !opts.workers then plane
        else
          var listed := List(plane.sys, ctx, DeploymentsOf(opts));
          ListedAreDeployments(plane.sys, ctx, opts);
          match listed.result
          case Failure(error) => Outcome(listed.sys, Some(Api(error)))
          case Success(items) => UpgradeWorkers(listed.sys, p, ctx, items, opts.target)
  }

  lemma UpgradeControlPlaneFollows(s: Sys, p: WritePolicy, ctx: Context, cluster: Object, target: string)
    requires Valid(s.world) && cluster.body.ClusterBody?
    ensures var out := UpgradeControlPlane(s, p, ctx, cluster, target); Follows(s, out.sys) && Valid(out.sys.world)
  {
    FollowsReflexive(s);
    var ref := cluster.body.controlPlaneRef;
    if ref.Some? && ref.value.kind == KUBEADM_CONTROL_PLANE {
      var key := Key(KubeadmControlPlane, ref.value.namespace, ref.value.name);
      RewriteFollows(s, p, ctx, key, SetControlPlaneVersion(target));
    }
  }

  lemma ListedAreDeployments(s: Sys, ctx: Context, opts: UpgradeOptions)
    requires Valid(s.world)
    ensures var listed := List(s, ctx, DeploymentsOf(opts));
            && Valid(listed.sys.world)
            && (listed.result.Success? ==> AreDeployments(listed.result.value))
  {
    hide Later, Recorded;
    ListFollows(s, ctx, DeploymentsOf(opts));
    var w := Arrive(s).world;
    ItemsAreStored(w.objects, w.index, DeploymentsOf(opts));
    var items := Items(w.objects, w.index, DeploymentsOf(opts));
    forall i | 0 <= i < |items| ensures items[i].state.body.DeploymentBody? && items[i].key.kind == MachineDeployment {
      assert IsListed(w.objects, w.index, DeploymentsOf(opts), items[i]);
    }
  }

  /** Fetch, check and write the referenced control plane. */
  method WriteControlPlane(c: Client, ctx: Context, cluster: Object, target: string) returns (err: Option<Error>)
    requires c.Ready() && cluster.body.ClusterBody?
    modifies c
    ensures c.Ready()
    ensures Outcome(c.sys, err) == UpgradeControlPlane(old(c.sys), c.policy, ctx, cluster, target)
  {
    hide Valid;
    if cluster.body.controlPlaneRef.None? { return None; }
    var ref := cluster.body.controlPlaneRef.value;
    if ref.kind != KUBEADM_CONTROL_PLANE { return Some(Invalid); }
    var key := Key(KubeadmControlPlane, ref.namespace, ref.name);
    var got := c.Fetch(ctx, key);
    if got.Failure? { return Some(Api(got.error)); }
    var kcp := got.value;
    var refused := CheckUpdate(c.policy, kcp.labels, kcp.annotations);
    if refused.Some? { return Some(Refused(refused.value)); }
    kcp := kcp.(body := kcp.body.(kcpVersion := target));
    err := c.Store(ctx, key, kcp);
  }

  /** The loop over the listed MachineDeployments. */
  method WriteWorkers(c: Client, ctx: Context, items: seq<Item>, target: string) returns (err: Option<Error>)
    requires c.Ready() && AreDeployments(items)
    modifies c
    ensures c.Ready()
    ensures Outcome(c.sys, err) == UpgradeWorkers(old(c.sys), c.policy, ctx, items, target)
  {
    hide Valid, CheckUpdate, Update;
    var i := 0;
    while i < |items|
      invariant c.Ready() && i <= |items|
      invariant UpgradeWorkers(c.sys, c.policy, ctx, items[i..], target) ==
                UpgradeWorkers(old(c.sys), c.policy, ctx, items, target)
    {
      assert items[i..][1..] == items[i + 1..] && items[i..][0] == items[i];
      var md := items[i].state;
      if md.body.version.Some? {
        var refused := CheckUpdate(c.policy, md.labels, md.annotations);
        if refused.Some? { return Some(Refused(refused.value)); }
        md := md.(body := md.body.(version := Some(target)));
        err := c.Store(ctx, items[i].key, md);
        if err.Some? { return err; }
      }
      i := i + 1;
    }
    return None;
  }

  method UpgradeCluster(c: Client, ctx: Context, opts: UpgradeOptions) returns (err: Option<Error>)
    requires c.Ready()
    modifies c
    ensures c.Ready()
    ensures Outcome(c.sys, err) == UpgradeOutcome(old(c.sys), c.policy, ctx, opts)
  {
    var got := c.Fetch(ctx, Key(Cluster, opts.namespace, opts.name));
    hide Valid;
    if got.Failure? { return Some(Api(got.error)); }
    var cluster := got.value;
    var refused := CheckUpdate(c.policy, cluster.labels, cluster.annotations);
    if refused.Some? { return Some(Refused(refused.value)); }
    err := WriteControlPlane(c, ctx, cluster, opts.target);
    if err.Some? || !opts.workers { return err; }
    ListedAreDeployments(c.sys, ctx, opts);
    var listed := List(c.sys, ctx, DeploymentsOf(opts));
    c.sys := listed.sys;
    if listed.result.Failure? { return Some(Api(listed.result.error)); }
    err := WriteWorkers(c, ctx, listed.result.value, opts.target);
  }
}
