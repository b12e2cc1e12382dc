/** Which objects an upgrade writes, by their own fields, and when it succeeds (pkg/capi/client.go,
    UpgradeCluster). */
module UpgradeTargets {
  import opened Wrappers
  import opened Policy
  import opened Store
  import opened Interleaving
  import opened Footprint
  import opened Changes
  import opened Capi
  import opened Gated
  import opened Upgrade
  import opened UpgradeSafety
  import opened RunSafety
  import opened Outcomes

  /** A MachineDeployment of the cluster, with a version. */
  predicate IsItsWorker(opts: UpgradeOptions, key: Key, o: Object) {
    && key.kind == MachineDeployment
    && key.namespace == opts.namespace
    && "cluster.x-k8s.io/cluster-name" in o.labels
    && o.labels["cluster.x-k8s.io/cluster-name"] == opts.name
    && o.body.DeploymentBody?
    && o.body.version.Some?
  }

  /** The control plane that the cluster refers to. */
  predicate IsItsPlane(objects: Objects, opts: UpgradeOptions, key: Key) {
    var cluster := Key(Cluster, opts.namespace, opts.name);
    && cluster in objects
    && objects[cluster].body.ClusterBody?
    && objects[cluster].body.controlPlaneRef == Some(Reference("KubeadmControlPlane", key.namespace, key.name))
    && key.kind == KubeadmControlPlane
  }

  /** after is before under another resourceVersion, with the target version and no other change. */
  predicate IsUpgraded(before: Object, after: Object, target: string) {
    after ==
    before.(rv := after.rv,
            body := match before.body
                    case ControlPlaneBody(_, replicas) => ControlPlaneBody(target, replicas)
                    case DeploymentBody(_, replicas, minReady, drainTimeout, rolloutAfter, template) =>
                      DeploymentBody(Some(target), replicas, minReady, drainTimeout, rolloutAfter, template)
                    case other => other)
  }

  /** e upgrades a worker of the cluster. */
  ghost predicate IsWorkerUpgrade(opts: UpgradeOptions, e: Event) {
    && e.Write?
    && e.before.Some?
    && e.after.Some?
    && IsItsWorker(opts, e.key, e.before.value)
    && IsUpgraded(e.before.value, e.after.value, opts.target)
  }

  /** e upgrades the control plane of the cluster. */
  ghost predicate IsPlaneUpgrade(objects: Objects, opts: UpgradeOptions, e: Event) {
    && e.Write?
    && e.before.Some?
    && e.after.Some?
    && IsItsPlane(objects, opts, e.key)
    && e.before.value.body.ControlPlaneBody?
    && IsUpgraded(e.before.value, e.after.value, opts.target)
  }

  /** Only named clusters in named namespaces are found. */
  lemma FoundIsNamed(s: Sys, opts: UpgradeOptions)
    requires Valid(s.world) && Key(Cluster, opts.namespace, opts.name) in Arrive(s).world.objects
    ensures opts.namespace != "" && opts.name != ""
  {
    hide Later, Recorded;
    ArriveFollows(s);
    FollowsGives(s, Arrive(s));
    assert Nameable(Key(Cluster, opts.namespace, opts.name));
  }

  /******* What is written *******/

  predicate AreItsOwn(opts: UpgradeOptions, items: seq<Item>) {
    forall i | 0 <= i < |items| && items[i].state.body.DeploymentBody? && items[i].state.body.version.Some? ::
      IsItsWorker(opts, items[i].key, items[i].state)
  }

  lemma OneWorkerWritten(
    origin: World, s: Sys, p: WritePolicy, ctx: Context, item: Item, opts: UpgradeOptions)
    requires Descends(origin, s) && ListedIn(origin, [item]) && AreDeployments([item])
    requires IsItsWorker(opts, item.key, item.state)
    ensures var out := CheckAndWrite(s, p, ctx, item.key, item.state, SetDeploymentVersion(opts.target));
            forall e | e in Made(s, out.sys) :: IsWorkerUpgrade(opts, e)
  {
    hide Follows, Valid, Later, CheckUpdate;
    assert [item][0] == item;
    DescendsGives(origin, s);
    CheckAndWriteMade(origin, s, p, ctx, item.key, item.state, SetDeploymentVersion(opts.target));
  }

  lemma {:induction false} WorkersWritten(
    origin: World, s: Sys, p: WritePolicy, ctx: Context, items: seq<Item>, opts: UpgradeOptions)
    requires Descends(origin, s) && ListedIn(origin, items) && AreDeployments(items) && AreItsOwn(opts, items)
    ensures forall e | e in Made(s, UpgradeWorkers(s, p, ctx, items, opts.target).sys) :: IsWorkerUpgrade(opts, e)
    decreases |items|
  {
    hide Descends, Follows, Valid, Later, Executes, Made, Extends, CheckAndWrite, IsItsWorker, IsWorkerUpgrade;
    var out := UpgradeWorkers(s, p, ctx, items, opts.target);
    if items == [] {
      MadeNothing(s, s);
    } else {
      var rest := items[1..];
      assert forall i | 0 <= i < |rest| :: rest[i] == items[i + 1];
      if items[0].state.body.version.None? {
        WorkersWritten(origin, s, p, ctx, rest, opts);
      } else {
        var one := CheckAndWrite(s, p, ctx, items[0].key, items[0].state, SetDeploymentVersion(opts.target));
        assert [items[0]][0] == items[0];
        OneWorkerWritten(origin, s, p, ctx, items[0], opts);
        UpgradeOneMade(origin, s, p, ctx, items[0], opts.target);
        DescendsFurther(origin, s, one.sys);
        if one.err.None? {
          WorkersWritten(origin, one.sys, p, ctx, rest, opts);
          UpgradeWorkersMade(origin, one.sys, p, ctx, rest, opts.target);
          MadeAppend(s, one.sys, out.sys);
        }
      }
    }
  }

  lemma ListedWorkersWritten(s: Sys, p: WritePolicy, ctx: Context, opts: UpgradeOptions)
    requires Valid(s.world) && opts.namespace != "" && opts.name != ""
    ensures forall e | e in Made(s, UpgradeListedWorkers(s, p, ctx, opts).sys) :: IsWorkerUpgrade(opts, e)
  {
    hide Valid, Follows, Executes, Later, IsWorkerUpgrade;
    var listed := List(s, ctx, DeploymentsOf(opts));
    var w := Arrive(s).world;
    ListFollows(s, ctx, DeploymentsOf(opts));
    ListedAreDeployments(s, ctx, opts);
    ArriveMade(s);
    if listed.result.Success? {
      var items := listed.result.value;
      LaterReflexive(w);
      ItemsAreStored(w.objects, w.index, DeploymentsOf(opts));
      forall i | 0 <= i < |items|
        ensures items[i].key in w.objects && w.objects[items[i].key] == items[i].state
        ensures Selects(DeploymentsOf(opts), items[i].key, items[i].state)
      {
        assert IsListed(w.objects, w.index, DeploymentsOf(opts), items[i]);
      }
      WorkersWritten(w, listed.sys, p, ctx, items, opts);
      UpgradeWorkersMade(w, listed.sys, p, ctx, items, opts.target);
      MadeAppend(s, listed.sys, UpgradeWorkers(listed.sys, p, ctx, items, opts.target).sys);
    }
  }

  lemma PlaneWritten(s: Sys, p: WritePolicy, ctx: Context, opts: UpgradeOptions)
    requires Valid(s.world)
    requires var key := Key(Cluster, opts.namespace, opts.name);
             key in s.world.objects && s.world.objects[key].body.ClusterBody?
    ensures var cluster := s.world.objects[Key(Cluster, opts.namespace, opts.name)];
            var out := UpgradeControlPlane(s, p, ctx, cluster, opts.target);
            forall e | e in Made(s, out.sys) :: IsPlaneUpgrade(s.world.objects, opts, e)
  {
    hide Valid, Made, Extends, Rewrite, CheckUpdate;
    MadeNothing(s, s);
    var ref := s.world.objects[Key(Cluster, opts.namespace, opts.name)].body.controlPlaneRef;
    if ref.Some? && ref.value.kind == KUBEADM_CONTROL_PLANE {
      var key := Key(KubeadmControlPlane, ref.value.namespace, ref.value.name);
      RewriteMade(s, p, ctx, key, SetControlPlaneVersion(opts.target));
    }
  }

  /** Whoever else writes, an upgrade writes nothing but its own cluster's objects: the control plane the cluster
      refers to and, if asked, MachineDeployments of its namespace that carry its name and a version at the moment
      they are replaced. Each gets the target version and no other change. */
  lemma UpgradeWritesItsOwn(s: Sys, p: WritePolicy, ctx: Context, opts: UpgradeOptions)
    requires Valid(s.world)
    ensures var out := UpgradeOutcome(s, p, ctx, opts);
            && Extends(s, out.sys)
            && forall e | e in Made(s, out.sys) ::
                 (opts.workers && IsWorkerUpgrade(opts, e)) || IsPlaneUpgrade(Arrive(s).world.objects, opts, e)
  {
    hide Valid, Follows, Executes, Made, Extends, UpgradeControlPlane, UpgradeWorkers, CheckUpdate, IsWorkerUpgrade,
         IsPlaneUpgrade;
    var key := Key(Cluster, opts.namespace, opts.name);
    var got := Get(s, ctx, key);
    var out := UpgradeOutcome(s, p, ctx, opts);
    GetFollows(s, ctx, key);
    FollowsGives(s, got.sys);
    ArriveMade(s);
    if got.result.Success? && CheckUpdate(p, got.result.value.labels, got.result.value.annotations).None? {
      var cluster := got.result.value;
      KindOfStored(got.sys.world, key);
      var plane := UpgradeControlPlane(got.sys, p, ctx, cluster, opts.target);
      FoundIsNamed(s, opts);
      PlaneWritten(got.sys, p, ctx, opts);
      UpgradeControlPlaneMade(got.sys, p, ctx, cluster, opts.target);
      UpgradeControlPlaneFollows(got.sys, p, ctx, cluster, opts.target);
      MadeAppend(s, got.sys, plane.sys);
      if plane.err.None? && opts.workers {
        ListedWorkersWritten(plane.sys, p, ctx, opts);
        UpgradeListedWorkersMade(plane.sys, p, ctx, opts);
        MadeAppend(s, plane.sys, UpgradeListedWorkers(plane.sys, p, ctx, opts).sys);
      }
    }
  }

  /******* What is not left out *******/

  lemma {:induction false} WorkerKeysAreItsWorkers(objects: Objects, index: seq<Key>, opts: UpgradeOptions, key: Key)
    requires opts.namespace != "" && opts.name != ""
    ensures key in WorkerKeys(objects, index, opts) <==>
            key in index && key in objects && IsItsWorker(opts, key, objects[key])
  {
    if index != [] { WorkerKeysAreItsWorkers(objects, index[1..], opts, key); }
  }

  /** e writes what is stored under key. */
  ghost predicate Covers(made: seq<Event>, key: Key) {
    exists i | 0 <= i < |made| :: Writes(made[i], key)
  }

  /** A successful upgrade has written the control plane the cluster referred to and, if asked, every one of the
      cluster's MachineDeployments with a version that was stored when it listed them. */
  lemma UpgradeReachesItsOwn(s: Sys, p: WritePolicy, ctx: Context, opts: UpgradeOptions)
    requires Valid(s.world) && UpgradeOutcome(s, p, ctx, opts).err.None?
    ensures var made := Made(s, UpgradeOutcome(s, p, ctx, opts).sys);
            var cluster := Key(Cluster, opts.namespace, opts.name);
            && Valid(Arrive(s).world)
            && cluster in Arrive(s).world.objects
            && Arrive(s).world.objects[cluster].body.ClusterBody?
            && (forall key | IsItsPlane(Arrive(s).world.objects, opts, key) :: Covers(made, key))
            && (opts.workers ==>
                  var listing := WorkerListing(s, p, ctx, Arrive(s).world.objects[cluster], opts.target);
                  forall key | key in listing.objects && IsItsWorker(opts, key, listing.objects[key]) ::
                    Covers(made, key))
  {
    hide Valid, Follows, Executes, Made, UpgradeOutcome, IsItsWorker, WorkerKeys, CheckUpdate, UpgradeControlPlane,
         Covers;
    var w := Arrive(s).world;
    ArriveFollows(s);
    FollowsGives(s, Arrive(s));
    UpgradeWritesAPrefix(s, p, ctx, opts);
    FoundIsNamed(s, opts);
    var made, plan := Made(s, UpgradeOutcome(s, p, ctx, opts).sys), PlanSeen(s, p, ctx, opts);
    forall key | key in plan ensures Covers(made, key) {
      PlannedIsWritten(p, plan, opts.target, made, key);
    }
    if opts.workers {
      var cluster := w.objects[Key(Cluster, opts.namespace, opts.name)];
      var listing := WorkerListing(s, p, ctx, cluster, opts.target);
      ListingIsValid(s, p, ctx, opts);
      forall key | key in listing.objects && IsItsWorker(opts, key, listing.objects[key]) ensures Covers(made, key) {
        IndexedIfStored(listing, key);
        WorkerKeysAreItsWorkers(listing.objects, listing.index, opts, key);
      }
    }
  }

  lemma PlannedIsWritten(p: WritePolicy, plan: seq<Key>, target: string, made: seq<Event>, key: Key)
    requires Executes(p, plan, target, made) && |made| == |plan| && key in plan
    ensures Covers(made, key)
  {
    var i :| 0 <= i < |plan| && plan[i] == key;
    assert Writes(made[i], key);
  }

  lemma ListingIsValid(s: Sys, p: WritePolicy, ctx: Context, opts: UpgradeOptions)
    requires Valid(s.world) && Valid(Arrive(s).world)
    requires var key := Key(Cluster, opts.namespace, opts.name);
             key in Arrive(s).world.objects && Arrive(s).world.objects[key].body.ClusterBody?
    ensures var cluster := Arrive(s).world.objects[Key(Cluster, opts.namespace, opts.name)];
            Valid(WorkerListing(s, p, ctx, cluster, opts.target))
  {
    hide Valid, Follows, UpgradeControlPlane;
    var cluster := Arrive(s).world.objects[Key(Cluster, opts.namespace, opts.name)];
    UpgradeControlPlaneFollows(Arrive(s), p, ctx, cluster, opts.target);
    var plane := UpgradeControlPlane(Arrive(s), p, ctx, cluster, opts.target).sys;
    ArriveFollows(plane);
    FollowsGives(plane, Arrive(plane));
  }

  /******* When nobody else writes *******/

  /** Without other writers, an object that is neither a worker of the cluster nor its control plane stays exactly
      as it is, however the upgrade ends. A successful one leaves the control plane and, if asked, every worker with
      the target version and otherwise as they were. */
  lemma UpgradeEndState(s: Sys, p: WritePolicy, ctx: Context, opts: UpgradeOptions, key: Key)
    requires Valid(s.world) && Quiet(s.script)
    ensures var start, out := s.world.objects, UpgradeOutcome(s, p, ctx, opts);
            var end := out.sys.world.objects;
            && (key in end <==> key in start)
            && (key in start ==>
                  var its := (opts.workers && IsItsWorker(opts, key, start[key])) || IsItsPlane(start, opts, key);
                  && (!its ==> end[key] == start[key])
                  && (its && out.err.None? ==> IsUpgraded(start[key], end[key], opts.target)))
  {
    hide Valid, Quiet, Recorded, Follows, OnlyOurs, Later, IsItsWorker, UpgradeOutcome, WorkerKeys, Executes,
         Upgradable;
    var start, out := s.world.objects, UpgradeOutcome(s, p, ctx, opts);
    var plan := UpgradePlan(p, start, s.world.index, opts);
    UpgradeLeavesAPrefixState(s, p, ctx, opts);
    UpgradeWritesAPrefix(s, p, ctx, opts);
    QuietPlan(s, p, ctx, opts);
    FollowsGives(s, out.sys);
    QuietArrive(s);
    var made := Made(s, out.sys);
    assert plan[..|plan|] == plan;
    AtVersionUnder(start, out.sys.world.objects, plan[..|made|], opts.target, key);
    if key in start {
      PlannedAreItsOwn(s.world, p, opts, key);
      if key !in plan { UnplannedIsUntouched(s, p, out.sys, plan, opts.target, key); }
    }
  }

  lemma AtVersionUnder(start: Objects, end: Objects, keys: seq<Key>, target: string, key: Key)
    requires Content(end) == AtVersion(Content(start), keys, target)
    ensures key in end <==> key in start
    ensures key in keys && key in start && (start[key].body.DeploymentBody? ==> HasVersion(start[key])) ==>
              IsUpgraded(start[key], end[key], target)
  {
    assert key in Content(end) <==> key in end;
    assert key in Content(start) <==> key in start;
    if key in start {
      assert Content(end)[key] == end[key].(rv := 0) && Content(start)[key] == start[key].(rv := 0);
    }
  }

  /** What the plan of an upgrade is, by the objects' own fields. */
  lemma PlannedAreItsOwn(w: World, p: WritePolicy, opts: UpgradeOptions, key: Key)
    requires Valid(w) && key in w.objects
    ensures var plan := UpgradePlan(p, w.objects, w.index, opts);
            var cluster := Key(Cluster, opts.namespace, opts.name);
            var its := (opts.workers && IsItsWorker(opts, key, w.objects[key])) || IsItsPlane(w.objects, opts, key);
            && (key in plan ==> its)
            && (its && cluster in w.objects && Upgradable(p, w.objects[cluster]) ==> key in plan)
            && (key in plan && w.objects[key].body.DeploymentBody? ==> HasVersion(w.objects[key]))
  {
    hide CheckUpdate, WorkerKeys;
    IndexedIfStored(w, key);
    var cluster := Key(Cluster, opts.namespace, opts.name);
    KindOfStored(w, key);
    if cluster in w.objects {
      assert Nameable(cluster);
      WorkerKeysAreItsWorkers(w.objects, w.index, opts, key);
    }
  }

  lemma UnplannedIsUntouched(s: Sys, p: WritePolicy, t: Sys, plan: seq<Key>, target: string, key: Key)
    requires Recorded(s.world, t.world) && OnlyOurs(s.world, t.world)
    requires Executes(p, plan, target, Made(s, t)) && key !in plan
    ensures Lookup(t.world.objects, key) == Lookup(s.world.objects, key)
  {
    hide Recorded;
    QuietHistory(s, t);
    var made := Made(s, t);
    forall i | |s.world.history| <= i < |t.world.history| ensures !Writes(t.world.history[i], key) {
      assert t.world.history[i] == made[i - |s.world.history|];
      assert made[i - |s.world.history|].key == plan[i - |s.world.history|];
    }
    assert s.world.history <= t.world.history by { assert OnlyOurs(s.world, t.world); }
    UntouchedIsUnchanged(s, t, key);
  }

  /******* When it succeeds *******/

  lemma {:induction false} CalmWorkers(w: World, p: WritePolicy, ctx: Context, items: seq<Item>, target: string)
    requires Valid(w) && !Done(ctx, w) && ListedIn(w, items) && AreDeployments(items)
    requires forall i, j | 0 <= i < j < |items| :: items[i].key != items[j].key
    ensures UpgradeWorkers(Sys(w, []), p, ctx, items, target).err.None? <==>
            forall i | 0 <= i < |items| && items[i].state.body.version.Some? :: Updatable(p, w.objects, items[i].key)
    decreases |items|
  {
    hide Valid, CheckUpdate, CheckAndWrite, Done;
    if items != [] {
      var rest := items[1..];
      assert forall i | 0 <= i < |rest| :: rest[i] == items[i + 1];
      if items[0].state.body.version.None? {
        CalmWorkers(w, p, ctx, rest, target);
      } else {
        CalmWrite(w, p, ctx, items[0].key, SetDeploymentVersion(target));
        var one := CheckAndWrite(Sys(w, []), p, ctx, items[0].key, items[0].state, SetDeploymentVersion(target));
        if one.err.None? {
          CalmWorkers(one.sys.world, p, ctx, rest, target);
          assert forall i | 0 <= i < |rest| ::
              Updatable(p, one.sys.world.objects, rest[i].key) <==> Updatable(p, w.objects, items[i + 1].key);
        }
      }
    }
  }

  lemma CalmPlane(w: World, p: WritePolicy, ctx: Context, cluster: Object, target: string)
    requires Valid(w) && !Done(ctx, w) && cluster.body.ClusterBody?
    ensures var out := UpgradeControlPlane(Sys(w, []), p, ctx, cluster, target);
            var ref := cluster.body.controlPlaneRef;
            && (out.err.None? <==>
                  ref.Some? ==>
                    && ref.value.kind == "KubeadmControlPlane"
                    && Updatable(p, w.objects, Key(KubeadmControlPlane, ref.value.namespace, ref.value.name)))
            && (out.err.None? ==>
                  && Valid(out.sys.world)
                  && out.sys.script == []
                  && !Done(ctx, out.sys.world)
                  && out.sys.world.index == w.index
                  && out.sys.world.objects.Keys == w.objects.Keys
                  && forall k | k in w.objects && k.kind == MachineDeployment ::
                       out.sys.world.objects[k] == w.objects[k])
  {
    hide Valid, CheckUpdate, CheckAndWrite, Done;
    CalmArrive(w);
    var ref := cluster.body.controlPlaneRef;
    if ref.Some? && ref.value.kind == "KubeadmControlPlane" {
      var plane := Key(KubeadmControlPlane, ref.value.namespace, ref.value.name);
      if plane in w.objects { CalmWrite(w, p, ctx, plane, SetControlPlaneVersion(target)); }
    }
  }

  /** The listed workers can be updated exactly if those of an equal store can. */
  lemma CalmListedWorkers(w: World, start: Objects, p: WritePolicy, ctx: Context, opts: UpgradeOptions)
    requires Valid(w) && !Done(ctx, w) && w.objects.Keys == start.Keys
    requires forall k | k in start && k.kind == MachineDeployment :: w.objects[k] == start[k]
    requires opts.namespace != "" && opts.name != ""
    ensures UpgradeListedWorkers(Sys(w, []), p, ctx, opts).err.None? <==>
            forall key | key in start && IsItsWorker(opts, key, start[key]) :: Updatable(p, start, key)
  {
    hide Valid, CheckUpdate, UpgradeWorkers, Done, Items;
    CalmArrive(w);
    ListedAreDeployments(Sys(w, []), ctx, opts);
    var q := DeploymentsOf(opts);
    var items := Items(w.objects, w.index, q);
    ItemsAreStored(w.objects, w.index, q);
    forall i | 0 <= i < |items|
      ensures items[i].key in start && start[items[i].key] == items[i].state == w.objects[items[i].key]
      ensures Selects(q, items[i].key, items[i].state)
    {
      assert IsListed(w.objects, w.index, q, items[i]);
    }
    IndexIsDistinct(w);
    ItemsAreDistinct(w.objects, w.index, q);
    CalmWorkers(w, p, ctx, items, opts.target);
    forall key | key in start && IsItsWorker(opts, key, start[key])
      ensures exists i :: 0 <= i < |items| && items[i].key == key
    {
      IndexedIfStored(w, key);
      assert IsListed(w.objects, w.index, q, Item(key, start[key]));
      assert Item(key, start[key]) in items;
    }
    forall i | 0 <= i < |items| && items[i].state.body.version.Some?
      ensures IsItsWorker(opts, items[i].key, start[items[i].key])
      ensures Updatable(p, start, items[i].key) <==> Updatable(p, w.objects, items[i].key)
    {
    }
  }

  /** Without faults and other writers an upgrade succeeds exactly if the cluster is there, its control plane, if it
      refers to one, is of the known kind and there, and the policy lets the cluster, the control plane and, if
      asked, each worker be updated. */
  lemma UpgradeSucceedsIff(w: World, p: WritePolicy, ctx: Context, opts: UpgradeOptions)
    requires Valid(w)
    ensures var cluster := Key(Cluster, opts.namespace, opts.name);
            UpgradeOutcome(Sys(w, []), p, ctx, opts).err.None? <==>
            && !Done(ctx, w)
            && Updatable(p, w.objects, cluster)
            && w.objects[cluster].body.ClusterBody?
            && (var ref := w.objects[cluster].body.controlPlaneRef;
                ref.Some? ==>
                  && ref.value.kind == "KubeadmControlPlane"
                  && Updatable(p, w.objects, Key(KubeadmControlPlane, ref.value.namespace, ref.value.name)))
            && (opts.workers ==>
                  forall key | key in w.objects && IsItsWorker(opts, key, w.objects[key]) ::
                    Updatable(p, w.objects, key))
  {
    hide Valid, CheckUpdate, UpgradeControlPlane, UpgradeWorkers, Done, IsItsWorker;
    CalmArrive(w);
    var key := Key(Cluster, opts.namespace, opts.name);
    if !Done(ctx, w) && Updatable(p, w.objects, key) {
      KindOfStored(w, key);
      FoundIsNamed(Sys(w, []), opts);
      CalmPlane(w, p, ctx, w.objects[key], opts.target);
      var plane := UpgradeControlPlane(Sys(w, []), p, ctx, w.objects[key], opts.target);
      if plane.err.None? && opts.workers { CalmListedWorkers(plane.sys.world, w.objects, p, ctx, opts); }
    }
  }
}
