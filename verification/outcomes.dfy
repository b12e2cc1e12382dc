/** When calls succeed without faults and other writers, by their arguments and the store, and which Node they are about
    (pkg/capi/client.go, pkg/capi/providers.go, pkg/capi/policy.go). */
module Outcomes {
  import opened Wrappers
  import opened Policy
  import opened Store
  import opened Interleaving
  import opened Footprint
  import opened Changes
  import opened Capi
  import opened Gated
  import opened Scaling
  import opened Idempotence

  /******* The policy *******/

  /** One of the markers of a GitOps controller or a Helm release is set. */
  predicate HasOwnerMark(labels: Metadata, annotations: Metadata) {
    || Read(labels, "kustomize.toolkit.fluxcd.io/name") != ""
    || Read(labels, "helm.toolkit.fluxcd.io/name") != ""
    || Read(labels, "argocd.argoproj.io/instance") != ""
    || Read(annotations, "argocd.argoproj.io/tracking-id") != ""
    || Read(annotations, "meta.helm.sh/release-name") != ""
    || Read(labels, "app.kubernetes.io/managed-by") == "Helm"
  }

  /** What the three checks let through, and which refusal they give. */
  lemma PolicyAllowsIff(p: WritePolicy, labels: Metadata, annotations: Metadata)
    ensures CheckCreate(p).None? <==> !p.readOnly
    ensures CheckUpdate(p, labels, annotations).None? <==>
            !p.readOnly && !(p.gitOpsGuard && HasOwnerMark(labels, annotations))
    ensures CheckDelete(p, labels, annotations).None? <==>
            && CheckUpdate(p, labels, annotations).None?
            && "giantswarm.io/prevent-deletion" !in labels
    ensures CheckCredentialExport(p).None? <==> p.exposeKubeconfig
    ensures p.readOnly ==>
              CheckCreate(p) == CheckUpdate(p, labels, annotations) == CheckDelete(p, labels, annotations) ==
              Some(ReadOnly)
    ensures !p.readOnly && p.gitOpsGuard && HasOwnerMark(labels, annotations) ==>
              CheckUpdate(p, labels, annotations) == CheckDelete(p, labels, annotations) == Some(ManagedResource)
  {
  }

  predicate IsQualified(full: string, namespace: string, name: string) {
    (namespace == "" ==> full == name) && (namespace != "" ==> full == namespace + "/" + name)
  }

  /** The name an owner is reported under: that of its marker, in the namespace the object gives for it. */
  lemma OwnerIsNamed(labels: Metadata, annotations: Metadata)
    requires ManagedBy(labels, annotations).Some?
    ensures var owner := ManagedBy(labels, annotations).value;
            && (owner.marker == Label("kustomize.toolkit.fluxcd.io/name") ==>
                  IsQualified(owner.name, Read(labels, "kustomize.toolkit.fluxcd.io/namespace"),
                              Read(labels, "kustomize.toolkit.fluxcd.io/name")))
            && (owner.marker == Label("helm.toolkit.fluxcd.io/name") ==>
                  IsQualified(owner.name, Read(labels, "helm.toolkit.fluxcd.io/namespace"),
                              Read(labels, "helm.toolkit.fluxcd.io/name")))
            && (owner.marker == Label("argocd.argoproj.io/instance") ==>
                  owner.name == Read(labels, "argocd.argoproj.io/instance"))
            && (owner.marker == Annotation("argocd.argoproj.io/tracking-id") ==>
                  owner.name == Read(annotations, "argocd.argoproj.io/tracking-id"))
            && (owner.marker == Annotation("meta.helm.sh/release-name") ==>
                  IsQualified(owner.name, Read(annotations, "meta.helm.sh/release-namespace"),
                              Read(annotations, "meta.helm.sh/release-name")))
            && (owner.marker == Label("app.kubernetes.io/managed-by") ==> owner.name == "")
  {
    assert |FLUX_HELM_RELEASE_NAME| == 27 && |MANAGED_BY| == 28;
    assert FLUX_KUSTOMIZATION_NAME[0] == 'k' && ARGO_INSTANCE[1] == 'r' && MANAGED_BY[1] == 'p';
  }

  /******* Calls that rewrite one object *******/

  /** The object is there and the policy lets it be updated. */
  predicate Updatable(p: WritePolicy, objects: Objects, key: Key) {
    key in objects && CheckUpdate(p, objects[key].labels, objects[key].annotations).None?
  }

  /** One write of a stored state. */
  lemma CalmWrite(w: World, p: WritePolicy, ctx: Context, key: Key, change: Change)
    requires Valid(w) && !Done(ctx, w) && key in w.objects && key.kind == Target(change)
    ensures KindOf(w.objects[key].body) == Target(change)
    ensures var out := CheckAndWrite(Sys(w, []), p, ctx, key, w.objects[key], change);
            && (out.err.None? <==> Updatable(p, w.objects, key))
            && (out.err.None? ==>
                  && Valid(out.sys.world)
                  && out.sys.script == []
                  && !Done(ctx, out.sys.world)
                  && out.sys.world.index == w.index
                  && out.sys.world.objects.Keys == w.objects.Keys
                  && forall k | k in w.objects && k != key :: out.sys.world.objects[k] == w.objects[k])
  {
    hide Valid, CheckUpdate, Apply;
    CalmArrive(w);
    KindOfStored(w, key);
    IndexedIfStored(w, key);
    CheckAndWriteFollows(Sys(w, []), p, ctx, key, w.objects[key], change);
    FollowsGives(Sys(w, []), CheckAndWrite(Sys(w, []), p, ctx, key, w.objects[key], change).sys);
  }

  /** A get-check-write call succeeds exactly if its object is there and the policy lets it be updated. */
  lemma RewriteSucceedsIff(w: World, p: WritePolicy, ctx: Context, key: Key, change: Change)
    requires Valid(w) && key.kind == Target(change)
    ensures var out := Rewrite(Sys(w, []), p, ctx, key, change);
            && out.sys == Sys(Rewritten(w, p, ctx, key, change), [])
            && (out.err.None? <==> !Done(ctx, w) && Updatable(p, w.objects, key))
            && (!Done(ctx, w) && key !in w.objects ==> out.err == Some(Api(NotFound)))
  {
    hide CheckUpdate, Apply, Valid;
    CalmArrive(w);
    CalmRewrite(w, p, ctx, key, change);
  }

  /** The node a call is about: the one named, or else the one the named Machine refers to. */
  ghost predicate IsTheNode(w: World, opts: NodeOptions, name: string) {
    if opts.nodeName != "" then name == opts.nodeName
    else
      var machine := Key(Machine, opts.namespace, opts.machineName);
      && opts.machineName != ""
      && machine in w.objects
      && w.objects[machine].body.MachineBody?
      && w.objects[machine].body.nodeRef == Some(name)
  }

  /** Whoever else writes, the name resolves to that node as the Machine refers to it when it is read. */
  lemma NodeNameIsTheNode(s: Sys, ctx: Context, opts: NodeOptions)
    requires Valid(s.world)
    ensures var named := NodeNameOf(s, ctx, opts);
            && (named.result.Success? ==> IsTheNode(Arrive(s).world, opts, named.result.value))
            && (opts.nodeName != "" || (Answers(ctx, s) && exists name :: IsTheNode(Arrive(s).world, opts, name)) ==>
                  named.result.Success?)
  {
    hide Valid, Follows;
    var key := Key(Machine, opts.namespace, opts.machineName);
    GetFollows(s, ctx, key);
    FollowsGives(s, Arrive(s));
    if key in Arrive(s).world.objects { KindOfStored(Arrive(s).world, key); }
  }

  /** A cordon writes at most that Node, and leaves it unschedulable, or schedulable when asked to uncordon. */
  lemma CordonWritesTheNode(s: Sys, p: WritePolicy, ctx: Context, opts: NodeOptions)
    requires Valid(s.world)
    ensures var out := Cordon(s, p, ctx, opts);
            && Extends(s, out.sys)
            && forall e | e in Made(s, out.sys) ::
                 && e.Write?
                 && e.key.kind == Node
                 && IsTheNode(Arrive(s).world, opts, e.key.name)
                 && e.before.Some?
                 && e.after.Some?
                 && e.after.value == e.before.value.(rv := e.after.value.rv, body := NodeBody(!opts.uncordon))
  {
    hide Valid, Follows, Made, Extends, Arrive, Rewrite, CheckUpdate, IsTheNode;
    var named := NodeNameOf(s, ctx, opts);
    NodeNameMade(s, ctx, opts);
    NodeNameIsTheNode(s, ctx, opts);
    if named.result.Success? {
      var key := Key(Node, "", named.result.value);
      RewriteMade(named.sys, p, ctx, key, SetUnschedulable(!opts.uncordon));
      MadeAppend(s, named.sys, Cordon(s, p, ctx, opts).sys);
    }
  }

  lemma CordonSucceedsIff(w: World, p: WritePolicy, ctx: Context, opts: NodeOptions)
    requires Valid(w)
    ensures Cordon(Sys(w, []), p, ctx, opts).err.None? <==>
            && !Done(ctx, w)
            && exists name :: IsTheNode(w, opts, name) && Updatable(p, w.objects, Key(Node, "", name))
  {
    hide Valid, CheckUpdate, Rewrite;
    CalmArrive(w);
    NodeNameIsTheNode(Sys(w, []), ctx, opts);
    var named := NodeNameOf(Sys(w, []), ctx, opts);
    if named.result.Success? {
      RewriteSucceedsIff(w, p, ctx, Key(Node, "", named.result.value), SetUnschedulable(!opts.uncordon));
      assert IsTheNode(w, opts, named.result.value);
    }
  }

  /******* Scaling *******/

  /** The worker entry that the argument names in the topology. */
  function WorkerNamed(objects: Objects, opts: ScaleOptions): string {
    var md := Key(MachineDeployment, opts.namespace, opts.deployment);
    if && md in objects
       && "topology.cluster.x-k8s.io/deployment-name" in objects[md].labels
       && objects[md].labels["topology.cluster.x-k8s.io/deployment-name"] != ""
    then objects[md].labels["topology.cluster.x-k8s.io/deployment-name"]
    else opts.deployment
  }

  ghost predicate HasWorker(topology: Topology, name: string) {
    topology.workers.Some? && exists i | 0 <= i < |topology.workers.value| :: topology.workers.value[i].name == name
  }

  lemma ScaledIffNamed(topology: Topology, opts: ScaleOptions, md: Result<Object, ApiError>)
    requires opts.target == "workers"
    ensures ScaledTopology(topology, opts, md).Some? <==> HasWorker(topology, TopologyName(md, opts.deployment))
  {
    assert |CONTROL_PLANE| != |"workers"|;
    if topology.workers.Some? {
      var workers, name := topology.workers.value, TopologyName(md, opts.deployment);
      var first := FirstNamed(workers, name);
      assert first < |workers| ==> workers[first].name == name;
    }
  }

  /** Scaling succeeds exactly if the count is in range, the cluster is there, and what holds the count is there and
      may be updated: for a cluster with a topology, the Cluster, in which the named worker must exist; otherwise
      the control plane of the cluster's name or the named MachineDeployment. */
  lemma ScaleSucceedsIff(w: World, p: WritePolicy, ctx: Context, opts: ScaleOptions)
    requires Valid(w)
    ensures var cluster := Key(Cluster, opts.namespace, opts.name);
            ScaleOutcome(Sys(w, []), p, ctx, opts).err.None? <==>
            && 0 <= opts.replicas <= 2147483647
            && !Done(ctx, w)
            && cluster in w.objects
            && w.objects[cluster].body.ClusterBody?
            && match w.objects[cluster].body.topology
               case Some(topology) =>
                 && Updatable(p, w.objects, cluster)
                 && (|| opts.target == "controlplane"
                     || (opts.target == "workers" && opts.deployment != ""
                         && HasWorker(topology, WorkerNamed(w.objects, opts))))
               case None =>
                 || (opts.target == "controlplane"
                     && Updatable(p, w.objects, Key(KubeadmControlPlane, opts.namespace, opts.name)))
                 || (opts.target == "workers" && opts.deployment != ""
                     && Updatable(p, w.objects, Key(MachineDeployment, opts.namespace, opts.deployment)))
  {
    hide Valid, CheckUpdate, CheckAndWrite, ScaledTopology, Rewrite, Done;
    CalmArrive(w);
    assert |"controlplane"| != |"workers"|;
    var key := Key(Cluster, opts.namespace, opts.name);
    if key in w.objects && !Done(ctx, w) {
      KindOfStored(w, key);
      var cluster := w.objects[key];
      if cluster.body.topology.Some? {
        var topology := cluster.body.topology.value;
        CalmWrite(w, p, ctx, key, SetTopology(topology.(controlPlaneReplicas := Some(opts.replicas))));
        if opts.target == "workers" {
          var md := Get(Sys(w, []), ctx, Key(MachineDeployment, opts.namespace, opts.deployment));
          ScaledIffNamed(topology, opts, md.result);
          assert TopologyName(md.result, opts.deployment) == WorkerNamed(w.objects, opts);
          var scaled := ScaledTopology(topology, opts, md.result);
          if scaled.Some? { CalmWrite(w, p, ctx, key, SetTopology(scaled.value)); }
        }
      } else if opts.target == "controlplane" {
        RewriteSucceedsIff(w, p, ctx, Key(KubeadmControlPlane, opts.namespace, opts.name),
                           ScaleControlPlane(opts.replicas));
      } else {
        RewriteSucceedsIff(w, p, ctx, Key(MachineDeployment, opts.namespace, opts.deployment),
                           ScaleDeployment(opts.replicas));
      }
    }
  }

  /******* Creating *******/

  /** A Cluster is created exactly if the policy is not read-only, its ClusterClass is in its namespace, and its name
      is new. */
  lemma CreatingAClusterSucceedsIff(w: World, p: WritePolicy, ctx: Context, opts: CreateClusterOptions)
    requires Valid(w)
    ensures var out := MakeCluster(Sys(w, []), p, ctx, opts);
            && (out.err.None? <==>
                  && !p.readOnly
                  && !Done(ctx, w)
                  && Key(ClusterClass, opts.namespace, opts.clusterClass) in w.objects
                  && opts.namespace != ""
                  && opts.name != ""
                  && Key(Cluster, opts.namespace, opts.name) !in w.objects)
            && (p.readOnly ==> out == Outcome(Sys(w, []), Some(Refused(ReadOnly))))
  {
    hide Valid, NewCluster;
    CalmArrive(w);
  }

  lemma CreatingADeploymentSucceedsIff(w: World, p: WritePolicy, ctx: Context, opts: CreateDeploymentOptions)
    requires Valid(w)
    ensures var out := MakeDeployment(Sys(w, []), p, ctx, opts);
            && (out.err.None? <==>
                  && !p.readOnly
                  && !Done(ctx, w)
                  && opts.namespace != ""
                  && opts.name != ""
                  && Key(MachineDeployment, opts.namespace, opts.name) !in w.objects)
            && (p.readOnly ==> out == Outcome(Sys(w, []), Some(Refused(ReadOnly))))
  {
    hide Valid, NewDeployment;
    CalmArrive(w);
  }
}
