/** Where an upgrade can stop, and what rerunning it does (pkg/capi/client.go, UpgradeCluster). */
module UpgradeSafety {
  import opened Wrappers
  import opened Policy
  import opened Store
  import opened Interleaving
  import opened Footprint
  import opened Changes
  import opened Capi
  import opened Gated
  import opened Upgrade

  /******* The plan *******/

  /** The change an upgrade makes to the object under key. */
  function VersionChange(key: Key, target: string): Change {
    if key.kind == KubeadmControlPlane then SetControlPlaneVersion(target) else SetDeploymentVersion(target)
  }

  /** The referenced control plane. */
  function PlaneKeys(cluster: Object): seq<Key>
    requires cluster.body.ClusterBody?
  {
    var ref := cluster.body.controlPlaneRef;
    if ref.Some? && ref.value.kind == KUBEADM_CONTROL_PLANE then
      [Key(KubeadmControlPlane, ref.value.namespace, ref.value.name)]
    else []
  }

  /** The policy lets the cluster be changed and its control plane, if it names one, is of the known kind. */
  predicate Upgradable(p: WritePolicy, cluster: Object) {
    && CheckUpdate(p, cluster.labels, cluster.annotations).None?
    && cluster.body.ClusterBody?
    && (cluster.body.controlPlaneRef.Some? ==> cluster.body.controlPlaneRef.value.kind == KUBEADM_CONTROL_PLANE)
  }

  predicate HasVersion(o: Object) {
    o.body.DeploymentBody? && o.body.version.Some?
  }

  /** The cluster's MachineDeployments with a version, in list order. */
  function WorkerKeys(objects: Objects, index: seq<Key>, opts: UpgradeOptions): seq<Key> {
    if index == [] then []
    else
      var rest := WorkerKeys(objects, index[1..], opts);
      if && index[0] in objects
         && Selects(DeploymentsOf(opts), index[0], objects[index[0]])
         && HasVersion(objects[index[0]])
      then [index[0]] + rest
      else rest
  }

  function Versioned(items: seq<Item>): seq<Key> {
    if items == [] then []
    else (if HasVersion(items[0].state) then [items[0].key] else []) + Versioned(items[1..])
  }

  lemma {:induction false} VersionedItems(objects: Objects, index: seq<Key>, opts: UpgradeOptions)
    ensures Versioned(Items(objects, index, DeploymentsOf(opts))) == WorkerKeys(objects, index, opts)
  {
    if index != [] {
      VersionedItems(objects, index[1..], opts);
      if index[0] in objects && Selects(DeploymentsOf(opts), index[0], objects[index[0]]) {
        var items := Items(objects, index, DeploymentsOf(opts));
        assert items[1..] == Items(objects, index[1..], DeploymentsOf(opts));
      }
    }
  }

  /******* The writes are a prefix of the plan *******/

  /** made are gated version writes of the first keys of plan, in order, and nothing else. */
  ghost predicate Executes(p: WritePolicy, plan: seq<Key>, target: string, made: seq<Event>) {
    && |made| <= |plan|
    && forall i | 0 <= i < |made| ::
         && IsGatedUpdate(p, made[i])
         && made[i].key == plan[i]
         && IsResultOf(made[i], VersionChange(plan[i], target), 0)
         && (made[i].before.value.body.DeploymentBody? ==> HasVersion(made[i].before.value))
  }

  lemma ExecutesAppend(p: WritePolicy, a: seq<Key>, b: seq<Key>, target: string, ma: seq<Event>, mb: seq<Event>)
    requires Executes(p, a, target, ma) && Executes(p, b, target, mb)
    requires |ma| == |a| || mb == []
    ensures Executes(p, a + b, target, ma + mb) && |ma + mb| == |ma| + |mb|
  {
  }

  /** One worker with a version. */
  lemma UpgradeOneMade(origin: World, s: Sys, p: WritePolicy, ctx: Context, item: Item, target: string)
    requires Descends(origin, s) && ListedIn(origin, [item]) && AreDeployments([item]) && HasVersion(item.state)
    ensures var out := CheckAndWrite(s, p, ctx, item.key, item.state, SetDeploymentVersion(target));
            && Follows(s, out.sys)
            && Extends(s, out.sys)
            && Executes(p, [item.key], target, Made(s, out.sys))
            && (out.err.None? ==> |Made(s, out.sys)| == 1)
  {
    hide Follows, Valid, Later;
    var change := SetDeploymentVersion(target);
    assert [item][0] == item;
    DescendsGives(origin, s);
    CheckAndWriteMade(origin, s, p, ctx, item.key, item.state, change);
    CheckAndWriteFollows(s, p, ctx, item.key, item.state, change);
  }

  lemma {:induction false} UpgradeWorkersMade(
    origin: World, s: Sys, p: WritePolicy, ctx: Context, items: seq<Item>, target: string)
    requires Descends(origin, s) && ListedIn(origin, items) && AreDeployments(items)
    ensures var out := UpgradeWorkers(s, p, ctx, items, target);
            && Follows(s, out.sys)
            && Extends(s, out.sys)
            && Executes(p, Versioned(items), target, Made(s, out.sys))
            && (out.err.None? ==> |Made(s, out.sys)| == |Versioned(items)|)
    decreases |items|
  {
    hide Descends, Follows, Valid, Later, Executes, Made, Extends, CheckAndWrite;
    var out := UpgradeWorkers(s, p, ctx, items, target);
    if items == [] {
      FollowsReflexive(s);
      MadeNothing(s, s);
      ExecutesNothing(p, Versioned(items), target);
    } else {
      assert ListedIn(origin, items[1..]) && AreDeployments(items[1..]) by {
        assert forall i | 0 <= i < |items| - 1 :: items[1..][i] == items[i + 1];
      }
      if items[0].state.body.version.None? {
        UpgradeWorkersMade(origin, s, p, ctx, items[1..], target);
        assert Versioned(items) == [] + Versioned(items[1..]) == Versioned(items[1..]);
      } else {
        assert Versioned(items) == [items[0].key] + Versioned(items[1..]);
        var one := CheckAndWrite(s, p, ctx, items[0].key, items[0].state, SetDeploymentVersion(target));
        assert [items[0]][0] == items[0];
        UpgradeOneMade(origin, s, p, ctx, items[0], target);
        DescendsFurther(origin, s, one.sys);
        if one.err.None? {
          UpgradeWorkersMade(origin, one.sys, p, ctx, items[1..], target);
          FollowsTransitive(s, one.sys, out.sys);
          MadeAppend(s, one.sys, out.sys);
          ExecutesAppend(p, [items[0].key], Versioned(items[1..]), target, Made(s, one.sys), Made(one.sys, out.sys));
        } else {
          ExecutesNothing(p, Versioned(items[1..]), target);
          ExecutesAppend(p, [items[0].key], Versioned(items[1..]), target, Made(s, one.sys), []);
          assert Made(s, one.sys) + [] == Made(s, one.sys);
        }
      }
    }
  }

  /** The state of the store in which the upgrade lists the MachineDeployments. */
  function WorkerListing(s: Sys, p: WritePolicy, ctx: Context, cluster: Object, target: string): World
    requires Valid(Arrive(s).world) && cluster.body.ClusterBody?
  {
    Arrive(UpgradeControlPlane(Arrive(s), p, ctx, cluster, target).sys).world
  }

  /** What the upgrade sets out to write: nothing for a cluster it may not or cannot upgrade; otherwise the control
      plane it read about, then the workers it listed. */
  function PlanSeen(s: Sys, p: WritePolicy, ctx: Context, opts: UpgradeOptions): seq<Key>
    requires Valid(s.world)
  {
    ArriveFollows(s);
    var w := Arrive(s).world;
    var key := Key(Cluster, opts.namespace, opts.name);
    if key !in w.objects || !Upgradable(p, w.objects[key]) then []
    else
      var cluster := w.objects[key];
      var listing := WorkerListing(s, p, ctx, cluster, opts.target);
      PlaneKeys(cluster) + (if opts.workers then WorkerKeys(listing.objects, listing.index, opts) else [])
  }

  lemma UpgradeControlPlaneMade(s: Sys, p: WritePolicy, ctx: Context, cluster: Object, target: string)
    requires Valid(s.world) && cluster.body.ClusterBody?
    ensures var out := UpgradeControlPlane(s, p, ctx, cluster, target);
            && Extends(s, out.sys)
            && Executes(p, PlaneKeys(cluster), target, Made(s, out.sys))
            && (out.err.None? ==> |Made(s, out.sys)| == |PlaneKeys(cluster)|)
            && (var ref := cluster.body.controlPlaneRef;
                ref.Some? && ref.value.kind != KUBEADM_CONTROL_PLANE ==> out.err.Some? && Made(s, out.sys) == [])
  {
    hide Valid, Made, Extends, Rewrite, CheckUpdate;
    MadeNothing(s, s);
    var ref := cluster.body.controlPlaneRef;
    if ref.Some? && ref.value.kind == KUBEADM_CONTROL_PLANE {
      var key := Key(KubeadmControlPlane, ref.value.namespace, ref.value.name);
      RewriteMade(s, p, ctx, key, SetControlPlaneVersion(target));
    }
  }

  /** However an upgrade ends and whoever writes in between, its writes set the target version, and nothing
      else, on a prefix of the plan: the control plane first, then the workers in list order. Success means
      all of them. A cluster that the policy protects, or whose control plane is of another kind, gets no write
      at all and an error. */
  lemma UpgradeWritesAPrefix(s: Sys, p: WritePolicy, ctx: Context, opts: UpgradeOptions)
    requires Valid(s.world)
    ensures var out := UpgradeOutcome(s, p, ctx, opts);
            && Extends(s, out.sys)
            && Follows(s, out.sys)
            && Executes(p, PlanSeen(s, p, ctx, opts), opts.target, Made(s, out.sys))
            && (out.err.None? ==> |Made(s, out.sys)| == |PlanSeen(s, p, ctx, opts)|)
            && (out.err.None? || Made(s, out.sys) != [] ==>
                  var w := Arrive(s).world;
                  var key := Key(Cluster, opts.namespace, opts.name);
                  key in w.objects && Upgradable(p, w.objects[key]))
  {
    hide Valid, Follows, Executes, Made, Extends, UpgradeControlPlane, UpgradeWorkers, PlaneKeys, WorkerKeys, ManagedBy;
    var key := Key(Cluster, opts.namespace, opts.name);
    var got := Get(s, ctx, key);
    var out := UpgradeOutcome(s, p, ctx, opts);
    GetFollows(s, ctx, key);
    FollowsGives(s, got.sys);
    ArriveMade(s);
    if key in got.sys.world.objects { KindOfStored(got.sys.world, key); }
    ExecutesNothing(p, PlanSeen(s, p, ctx, opts), opts.target);
    if got.result.Success? && CheckUpdate(p, got.result.value.labels, got.result.value.annotations).None? {
      var cluster := got.result.value;
      var plane := UpgradeControlPlane(got.sys, p, ctx, cluster, opts.target);
      UpgradeControlPlaneMade(got.sys, p, ctx, cluster, opts.target);
      UpgradeControlPlaneFollows(got.sys, p, ctx, cluster, opts.target);
      FollowsTransitive(s, got.sys, plane.sys);
      MadeAppend(s, got.sys, plane.sys);
      assert Made(s, plane.sys) == Made(got.sys, plane.sys);
      if !Upgradable(p, cluster) {
        assert Made(s, out.sys) == [];
      } else if plane.err.Some? || !opts.workers {
        ExecutesNothing(p, PlanSeen(s, p, ctx, opts)[|PlaneKeys(cluster)|..], opts.target);
        ExecutesAppend(p, PlaneKeys(cluster), PlanSeen(s, p, ctx, opts)[|PlaneKeys(cluster)|..], opts.target,
                       Made(s, plane.sys), []);
        assert PlaneKeys(cluster) + PlanSeen(s, p, ctx, opts)[|PlaneKeys(cluster)|..] == PlanSeen(s, p, ctx, opts);
        assert Made(s, plane.sys) + [] == Made(s, plane.sys);
      } else {
        UpgradeListedWorkersMade(plane.sys, p, ctx, opts);
        var workers := UpgradeListedWorkers(plane.sys, p, ctx, opts);
        var listing := Arrive(plane.sys).world;
        MadeAppend(s, plane.sys, workers.sys);
        FollowsTransitive(s, plane.sys, workers.sys);
        ExecutesAppend(p, PlaneKeys(cluster), WorkerKeys(listing.objects, listing.index, opts), opts.target,
                       Made(s, plane.sys), Made(plane.sys, workers.sys));
      }
    }
  }

  lemma ExecutesNothing(p: WritePolicy, plan: seq<Key>, target: string)
    ensures Executes(p, plan, target, [])
  {
  }

  /** The worker half of an upgrade. */
  function UpgradeListedWorkers(s: Sys, p: WritePolicy, ctx: Context, opts: UpgradeOptions): Outcome
    requires Valid(s.world)
  {
    var listed := List(s, ctx, DeploymentsOf(opts));
    ListedAreDeployments(s, ctx, opts);
    match listed.result
    case Failure(error) => Outcome(listed.sys, Some(Api(error)))
    case Success(items) => UpgradeWorkers(listed.sys, p, ctx, items, opts.target)
  }

  lemma UpgradeListedWorkersMade(s: Sys, p: WritePolicy, ctx: Context, opts: UpgradeOptions)
    requires Valid(s.world)
    ensures var out := UpgradeListedWorkers(s, p, ctx, opts);
            var plan := WorkerKeys(Arrive(s).world.objects, Arrive(s).world.index, opts);
            && Extends(s, out.sys)
            && Follows(s, out.sys)
            && Executes(p, plan, opts.target, Made(s, out.sys))
            && (out.err.None? ==> |Made(s, out.sys)| == |plan|)
  {
    hide Valid, Follows, Executes, Later;
    var listed := List(s, ctx, DeploymentsOf(opts));
    var w := Arrive(s).world;
    ListFollows(s, ctx, DeploymentsOf(opts));
    ListedAreDeployments(s, ctx, opts);
    ArriveMade(s);
    ExecutesNothing(p, WorkerKeys(w.objects, w.index, opts), opts.target);
    if listed.result.Success? {
      var items := listed.result.value;
      LaterReflexive(w);
      forall i | 0 <= i < |items| ensures items[i].key in w.objects && w.objects[items[i].key] == items[i].state {
        ItemsAreStored(w.objects, w.index, DeploymentsOf(opts));
        assert IsListed(w.objects, w.index, DeploymentsOf(opts), items[i]);
      }
      VersionedItems(w.objects, w.index, opts);
      UpgradeWorkersMade(w, listed.sys, p, ctx, items, opts.target);
      var out := UpgradeWorkers(listed.sys, p, ctx, items, opts.target);
      MadeAppend(s, listed.sys, out.sys);
      assert Made(s, out.sys) == Made(listed.sys, out.sys);
      FollowsTransitive(s, listed.sys, out.sys);
    }
  }

  /******* Prefix states and reruns, when nobody else writes *******/

  /** Like the upgrade, this gives no version to a MachineDeployment that has none. */
  function ToVersion(o: Object, target: string): Object {
    match o.body
    case ControlPlaneBody(_, _) => o.(body := o.body.(kcpVersion := target))
    case DeploymentBody(version, _, _, _, _, _) =>
      if version.Some? then o.(body := o.body.(version := Some(target))) else o
    case _ => o
  }

  /** The objects with the target version at the given keys. */
  function AtVersion(objects: Objects, keys: seq<Key>, target: string): Objects {
    map k | k in objects :: if k in keys then ToVersion(objects[k], target) else objects[k]
  }

  /** One more version write sets one more version. */
  lemma OneMoreVersion(
    start: Objects, earlier: Objects, keys: seq<Key>, key: Key, target: string, before: Object, after: Object)
    requires Content(earlier) == AtVersion(Content(start), keys, target)
    requires key in earlier && earlier[key] == before
    requires after.(rv := 0) == ToVersion(before.(rv := 0), target)
    ensures Content(earlier[key := after]) == AtVersion(Content(start), keys + [key], target)
  {
    var left := Content(earlier[key := after]);
    var right := AtVersion(Content(start), keys + [key], target);
    assert key in Content(earlier);
    assert left.Keys == right.Keys by {
      assert left.Keys == Content(earlier).Keys;
    }
    forall k | k in left ensures left[k] == right[k] {
      if k != key {
        assert k in Content(earlier) && left[k] == Content(earlier)[k];
        assert k in keys + [key] <==> k in keys;
      } else {
        assert Content(earlier)[key] == before.(rv := 0);
      }
    }
  }

  /** Replaying version writes is setting versions. */
  lemma {:induction false} ReplayedVersions(
    p: WritePolicy, objects: Objects, plan: seq<Key>, target: string, made: seq<Event>)
    requires Fits(objects, made) && Executes(p, plan, target, made)
    ensures Content(Replay(objects, made)) == AtVersion(Content(objects), plan[..|made|], target)
  {
    hide Executes, Fits, Content, AtVersion, ToVersion;
    if made == [] {
      assert plan[..0] == [];
      NoVersions(objects, target);
    } else {
      var n := |made| - 1;
      var init := made[..n];
      ExecutesInit(p, plan, target, made);
      ExecutedSetsVersion(p, plan, target, made, n);
      FitsLast(objects, made);
      ReplayedVersions(p, objects, plan, target, init);
      assert plan[..n + 1] == plan[..n] + [plan[n]];
      var e := made[n];
      OneMoreVersion(objects, Replay(objects, init), plan[..n], e.key, target, e.before.value, e.after.value);
    }
  }

  lemma NoVersions(objects: Objects, target: string)
    ensures AtVersion(Content(objects), [], target) == Content(objects)
  {
  }

  lemma ExecutesInit(p: WritePolicy, plan: seq<Key>, target: string, made: seq<Event>)
    requires made != [] && Executes(p, plan, target, made)
    ensures Executes(p, plan, target, made[..|made| - 1]) && |made| <= |plan|
  {
  }

  lemma ExecutesLength(p: WritePolicy, plan: seq<Key>, target: string, made: seq<Event>)
    requires Executes(p, plan, target, made)
    ensures |made| <= |plan|
  {
  }

  lemma ExecutedSetsVersion(p: WritePolicy, plan: seq<Key>, target: string, made: seq<Event>, i: nat)
    requires Executes(p, plan, target, made) && i < |made|
    ensures var e := made[i];
            && e.Write?
            && e.key == plan[i]
            && e.before.Some?
            && e.after.Some?
            && e.after.value.(rv := 0) == ToVersion(e.before.value.(rv := 0), target)
  {
    hide CheckUpdate;
  }

  lemma FitsLast(objects: Objects, events: seq<Event>)
    requires events != [] && Fits(objects, events) && events[|events| - 1].Write?
    ensures var e := events[|events| - 1];
            var earlier := Replay(objects, events[..|events| - 1]);
            && Fits(objects, events[..|events| - 1])
            && Lookup(earlier, e.key) == e.before
            && Replay(objects, events) == Stored(earlier, e.key, e.after)
  {
  }

  /** Writes of existing keys do not change the list order. */
  lemma {:induction false} ReplayedIndex(p: WritePolicy, w: World, plan: seq<Key>, target: string, made: seq<Event>)
    requires Valid(w) && Fits(w.objects, made) && Executes(p, plan, target, made)
    ensures Replay(w.objects, made).Keys == w.objects.Keys && ReplayIndex(w.index, made) == w.index
  {
    if made != [] {
      var init := made[..|made| - 1];
      assert forall i | 0 <= i < |init| :: init[i] == made[i];
      ReplayedIndex(p, w, plan, target, init);
    }
  }

  /** What an upgrade starting in these objects sets out to write. */
  function UpgradePlan(p: WritePolicy, objects: Objects, index: seq<Key>, opts: UpgradeOptions): seq<Key> {
    var key := Key(Cluster, opts.namespace, opts.name);
    if key !in objects || !Upgradable(p, objects[key]) then []
    else PlaneKeys(objects[key]) + (if opts.workers then WorkerKeys(objects, index, opts) else [])
  }

  /** Setting versions changes neither which objects there are nor what an upgrade looks at. */
  lemma SameButVersion(a: Objects, b: Objects, keys: seq<Key>, target: string, k: Key)
    requires Content(b) == AtVersion(Content(a), keys, target)
    ensures k in a <==> k in b
    ensures k in a ==>
              && a[k].labels == b[k].labels
              && a[k].annotations == b[k].annotations
              && HasVersion(a[k]) == HasVersion(b[k])
              && KindOf(a[k].body) == KindOf(b[k].body)
              && (a[k].body.ClusterBody? ==> a[k].body == b[k].body)
  {
    assert k in a <==> k in Content(a);
    assert k in b <==> k in Content(b);
    if k in a {
      assert Content(b)[k] == if k in keys then ToVersion(Content(a)[k], target) else Content(a)[k];
      assert b[k].body == Content(b)[k].body && a[k].body == Content(a)[k].body;
    }
  }

  lemma {:induction false} WorkerKeysStable(
    a: Objects, b: Objects, keys: seq<Key>, target: string, index: seq<Key>, opts: UpgradeOptions)
    requires Content(b) == AtVersion(Content(a), keys, target)
    ensures WorkerKeys(a, index, opts) == WorkerKeys(b, index, opts)
  {
    if index != [] {
      WorkerKeysStable(a, b, keys, target, index[1..], opts);
      SameButVersion(a, b, keys, target, index[0]);
    }
  }

  /** An upgrade's own writes do not change its plan. */
  lemma PlanStable(
    p: WritePolicy, a: Objects, b: Objects, keys: seq<Key>, target: string, index: seq<Key>, opts: UpgradeOptions)
    requires Content(b) == AtVersion(Content(a), keys, target)
    ensures UpgradePlan(p, a, index, opts) == UpgradePlan(p, b, index, opts)
  {
    WorkerKeysStable(a, b, keys, target, index, opts);
    SameButVersion(a, b, keys, target, Key(Cluster, opts.namespace, opts.name));
  }

  /** Without other writers the upgrade follows the plan of the store it started in. */
  lemma QuietPlan(s: Sys, p: WritePolicy, ctx: Context, opts: UpgradeOptions)
    requires Valid(s.world) && Quiet(s.script)
    ensures PlanSeen(s, p, ctx, opts) == UpgradePlan(p, s.world.objects, s.world.index, opts)
  {
    hide Valid, Quiet, Recorded, Follows, Executes, Later;
    var w := s.world;
    var key := Key(Cluster, opts.namespace, opts.name);
    QuietArrive(s);
    ArriveFollows(s);
    FollowsGives(s, Arrive(s));
    if key in w.objects {
      KindOfStored(w, key);
      var cluster := w.objects[key];
      var plane := UpgradeControlPlane(Arrive(s), p, ctx, cluster, opts.target);
      UpgradeControlPlaneMade(Arrive(s), p, ctx, cluster, opts.target);
      UpgradeControlPlaneFollows(Arrive(s), p, ctx, cluster, opts.target);
      FollowsGives(Arrive(s), plane.sys);
      QuietVersions(p, Arrive(s), plane.sys, PlaneKeys(cluster), opts.target);
      QuietArrive(plane.sys);
      var upTo := PlaneKeys(cluster)[..|Made(Arrive(s), plane.sys)|];
      WorkerKeysStable(w.objects, plane.sys.world.objects, upTo, opts.target, w.index, opts);
    }
  }

  /** Without other writers, version writes are all that happened. */
  lemma QuietVersions(p: WritePolicy, s: Sys, t: Sys, plan: seq<Key>, target: string)
    requires Valid(s.world) && Recorded(s.world, t.world) && OnlyOurs(s.world, t.world)
    requires Executes(p, plan, target, Made(s, t))
    ensures |Made(s, t)| <= |plan|
    ensures Content(t.world.objects) == AtVersion(Content(s.world.objects), plan[..|Made(s, t)|], target)
    ensures t.world.index == s.world.index
  {
    hide Valid, Executes;
    ExecutesLength(p, plan, target, Made(s, t));
    QuietHistory(s, t);
    ReplayedVersions(p, s.world.objects, plan, target, Made(s, t));
    ReplayedIndex(p, s.world, plan, target, Made(s, t));
  }

  /** Stopped by any refusal, error or lost reply, an upgrade without other writers leaves the store as it was
      except for the target version on a prefix of its plan; a successful one sets the whole plan. */
  lemma UpgradeLeavesAPrefixState(s: Sys, p: WritePolicy, ctx: Context, opts: UpgradeOptions)
    requires Valid(s.world) && Quiet(s.script)
    ensures var out := UpgradeOutcome(s, p, ctx, opts);
            var plan := UpgradePlan(p, s.world.objects, s.world.index, opts);
            var n := |Made(s, out.sys)|;
            && n <= |plan|
            && (out.err.None? ==> n == |plan|)
            && Content(out.sys.world.objects) == AtVersion(Content(s.world.objects), plan[..n], opts.target)
            && out.sys.world.index == s.world.index
  {
    hide Valid, Quiet, Recorded, Follows, OnlyOurs, Later;
    var out := UpgradeOutcome(s, p, ctx, opts);
    UpgradeWritesAPrefix(s, p, ctx, opts);
    QuietPlan(s, p, ctx, opts);
    FollowsGives(s, out.sys);
    QuietVersions(p, s, out.sys, UpgradePlan(p, s.world.objects, s.world.index, opts), opts.target);
  }

  /** Rerunning a stopped upgrade to success reaches the store that one successful upgrade reaches. */
  lemma UpgradeRerunReachesTheSameStore(
    first: Sys, p: WritePolicy, ctx: Context, opts: UpgradeOptions, again: Sys, ctx': Context, whole: Sys,
    ctx'': Context)
    requires Valid(first.world) && Quiet(first.script)
    requires var stopped := UpgradeOutcome(first, p, ctx, opts).sys;
             && Valid(again.world)
             && again.world.objects == stopped.world.objects
             && again.world.index == stopped.world.index
    requires Quiet(again.script) && UpgradeOutcome(again, p, ctx', opts).err.None?
    requires whole.world == first.world && Quiet(whole.script) && UpgradeOutcome(whole, p, ctx'', opts).err.None?
    ensures Content(UpgradeOutcome(again, p, ctx', opts).sys.world.objects) ==
            Content(UpgradeOutcome(whole, p, ctx'', opts).sys.world.objects)
  {
    hide Valid, Quiet, UpgradeOutcome, Content, AtVersion, UpgradePlan, Made;
    UpgradeLeavesAPrefixState(first, p, ctx, opts);
    UpgradeLeavesAPrefixState(again, p, ctx', opts);
    UpgradeLeavesAPrefixState(whole, p, ctx'', opts);
    var start := first.world.objects;
    var plan := UpgradePlan(p, start, first.world.index, opts);
    var n := |Made(first, UpgradeOutcome(first, p, ctx, opts).sys)|;
    PlanStable(p, start, again.world.objects, plan[..n], opts.target, first.world.index, opts);
    assert plan[..|plan|] == plan;
    VersionsAbsorb(Content(start), plan, n, opts.target);
  }

  lemma VersionsAbsorb(objects: Objects, plan: seq<Key>, n: nat, target: string)
    requires n <= |plan|
    ensures AtVersion(AtVersion(objects, plan[..n], target), plan, target) == AtVersion(objects, plan, target)
  {
    assert forall k :: k in plan[..n] ==> k in plan;
  }
}
