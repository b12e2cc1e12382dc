/** Whole runs: any sequence of client calls under any policy, interleaved with anybody else's writes
    (pkg/capi/policy.go and the mutating methods of pkg/capi). */
module Runs {
  import opened Wrappers
  import opened Policy
  import opened Store
  import opened Interleaving
  import opened Footprint
  import opened Changes
  import opened Capi
  import opened Gated
  import opened Drain
  import opened DrainSafety
  import opened DrainReporting
  import opened Upgrade
  import opened UpgradeSafety
  import opened Scaling
  import opened ResourceSets
  import opened Listing

  /******* Calls and runs *******/

  /** A call of a client method. Modify stands for every method that rewrites one object, ListClusters for the bulk
      listing, ReadStatus for the status query of one cluster, and Look for any other method that sends only
      reads. */
  datatype Call =
    | Modify(namespace: string, name: string, change: Change)
    | DeleteCluster(namespace: string, name: string)
    | DeleteMachine(namespace: string, name: string, force: bool)
    | UpgradeCluster(upgrade: UpgradeOptions)
    | ScaleCluster(scale: ScaleOptions)
    | CreateCluster(cluster: CreateClusterOptions)
    | CreateDeployment(deployment: CreateDeploymentOptions)
    | CordonNode(node: NodeOptions)
    | DrainNode(node: NodeOptions)
    | CreateResourceSet(resourceSet: SetOptions)
    | DeleteResourceSet(namespace: string, name: string)
    | ListClusters(namespace: string, filter: Filter)
    | ReadStatus(namespace: string, name: string)
    | Look(requests: nat)

  /** Every call has a context of its own. */
  datatype Request = Request(ctx: Context, call: Call)

  function Watch(s: Sys, requests: nat): Sys
    decreases requests
  {
    if requests == 0 then s else Watch(Arrive(s), requests - 1)
  }

  function Perform(s: Sys, p: WritePolicy, ctx: Context, call: Call): Sys
    requires Valid(s.world)
  {
    match call
    case Modify(namespace, name, change) => Rewrite(s, p, ctx, Key(Target(change), namespace, name), change).sys
    case DeleteCluster(namespace, name) => Erase(s, p, ctx, Key(Cluster, namespace, name), false).sys
    case DeleteMachine(namespace, name, force) => Erase(s, p, ctx, Key(Machine, namespace, name), force).sys
    case UpgradeCluster(opts) => UpgradeOutcome(s, p, ctx, opts).sys
    case ScaleCluster(opts) => ScaleOutcome(s, p, ctx, opts).sys
    case CreateCluster(opts) => MakeCluster(s, p, ctx, opts).sys
    case CreateDeployment(opts) => MakeDeployment(s, p, ctx, opts).sys
    case CordonNode(opts) => Cordon(s, p, ctx, opts).sys
    case DrainNode(opts) => DrainAll(s, p, ctx, opts).sys
    case CreateResourceSet(opts) => MakeSet(s, ctx, opts).sys
    case DeleteResourceSet(namespace, name) => RemoveSet(s, ctx, namespace, name).sys
    case ListClusters(namespace, filter) => ListStatuses(s, ctx, namespace, filter).sys
    case ReadStatus(namespace, name) => SingleStatus(s, ctx, namespace, name).sys
    case Look(requests) => Watch(s, requests)
  }

  /** A new call starts with a context nobody has cancelled yet. */
  function Begin(s: Sys): Sys {
    s.(world := s.world.(cancelled := false))
  }

  function Serve(s: Sys, p: WritePolicy, request: Request): (t: Sys)
    requires Valid(s.world)
    ensures Valid(t.world)
  {
    BeginFollows(s);
    FollowsGives(s, Begin(s));
    PerformFollows(Begin(s), p, request.ctx, request.call);
    Perform(Begin(s), p, request.ctx, request.call)
  }

  function Run(s: Sys, p: WritePolicy, requests: seq<Request>): (t: Sys)
    requires Valid(s.world)
    ensures Valid(t.world)
    decreases |requests|
  {
    if requests == [] then s else Run(Serve(s, p, requests[0]), p, requests[1..])
  }

  function CallsOf(requests: seq<Request>): (calls: seq<Call>)
    ensures |calls| == |requests| && forall i | 0 <= i < |calls| :: calls[i] == requests[i].call
  {
    seq(|requests|, i requires 0 <= i < |requests| => requests[i].call)
  }

  lemma BeginFollows(s: Sys)
    ensures Follows(s, Begin(s))
  {
    ClockFollows(s, Begin(s));
  }

  lemma {:induction false} WatchFollows(s: Sys, requests: nat)
    ensures Follows(s, Watch(s, requests)) && Extends(s, Watch(s, requests)) && Made(s, Watch(s, requests)) == []
    decreases requests
  {
    if requests == 0 {
      FollowsReflexive(s);
      MadeNothing(s, s);
    } else {
      ArriveFollows(s);
      ArriveMade(s);
      WatchFollows(Arrive(s), requests - 1);
      FollowsTransitive(s, Arrive(s), Watch(s, requests));
      MadeAppend(s, Arrive(s), Watch(s, requests));
    }
  }

  lemma RemoveSetFollows(s: Sys, ctx: Context, namespace: string, name: string)
    requires Valid(s.world)
    ensures Follows(s, RemoveSet(s, ctx, namespace, name).sys)
  {
    var key := Key(ClusterResourceSet, namespace, name);
    var got := Get(s, ctx, key);
    GetFollows(s, ctx, key);
    DeleteFollows(got.sys, ctx, key);
    FollowsTransitive(s, got.sys, Delete(got.sys, ctx, key).sys);
  }

  lemma DrainAllFollows(s: Sys, p: WritePolicy, ctx: Context, opts: NodeOptions)
    requires Valid(s.world)
    ensures Follows(s, DrainAll(s, p, ctx, opts).sys)
  {
    hide Valid, Follows, Holds, CordonFirst, DrainCordoned;
    var cordoned := CordonFirst(s, p, ctx, opts);
    CordonFirstFollows(s, p, ctx, opts);
    if cordoned.result.Success? {
      DrainCordonedMoves(cordoned.sys, DrainContext(ctx, cordoned.sys.world, opts), cordoned.result.value, opts);
      FollowsTransitive(s, cordoned.sys, DrainAll(s, p, ctx, opts).sys);
    }
  }

  /** Every call moves the world forward. */
  lemma PerformFollows(s: Sys, p: WritePolicy, ctx: Context, call: Call)
    requires Valid(s.world)
    ensures var t := Perform(s, p, ctx, call); Follows(s, t) && Valid(t.world)
  {
    hide Valid, Follows, Rewrite, Erase, UpgradeOutcome, ScaleOutcome, MakeCluster, MakeDeployment, Cordon, DrainAll,
         MakeSet, RemoveSet, Watch, ListStatuses, SingleStatus;
    match call {
      case Modify(namespace, name, change) => RewriteFollows(s, p, ctx, Key(Target(change), namespace, name), change);
      case DeleteCluster(namespace, name) => EraseFollows(s, p, ctx, Key(Cluster, namespace, name), false);
      case DeleteMachine(namespace, name, force) => EraseFollows(s, p, ctx, Key(Machine, namespace, name), force);
      case UpgradeCluster(opts) => UpgradeWritesAPrefix(s, p, ctx, opts);
      case ScaleCluster(opts) => ScaleFollows(s, p, ctx, opts);
      case CreateCluster(opts) => MakeClusterFollows(s, p, ctx, opts);
      case CreateDeployment(opts) => MakeDeploymentFollows(s, p, ctx, opts);
      case CordonNode(opts) => CordonFollows(s, p, ctx, opts);
      case DrainNode(opts) => DrainAllFollows(s, p, ctx, opts);
      case CreateResourceSet(opts) => ResourceSetIsLast(s, ctx, opts);
      case DeleteResourceSet(namespace, name) => RemoveSetFollows(s, ctx, namespace, name);
      case ListClusters(namespace, filter) => ListStatusesOnlyReads(s, ctx, namespace, filter);
      case ReadStatus(namespace, name) => SingleStatusOnlyReads(s, ctx, namespace, name);
      case Look(requests) => WatchFollows(s, requests);
    }
    FollowsGives(s, Perform(s, p, ctx, call));
  }

  lemma ServeFollows(s: Sys, p: WritePolicy, request: Request)
    requires Valid(s.world)
    ensures Follows(s, Serve(s, p, request))
  {
    hide Valid, Follows, Perform;
    BeginFollows(s);
    FollowsGives(s, Begin(s));
    PerformFollows(Begin(s), p, request.ctx, request.call);
    FollowsTransitive(s, Begin(s), Serve(s, p, request));
  }

  lemma {:induction false} RunFollows(s: Sys, p: WritePolicy, requests: seq<Request>)
    requires Valid(s.world)
    ensures Follows(s, Run(s, p, requests))
    decreases |requests|
  {
    hide Valid, Follows, Serve;
    if requests == [] {
      FollowsReflexive(s);
    } else {
      ServeFollows(s, p, requests[0]);
      RunFollows(Serve(s, p, requests[0]), p, requests[1..]);
      FollowsTransitive(s, Serve(s, p, requests[0]), Run(s, p, requests));
    }
  }

  /******* What one event may be *******/

  /** The kinds whose writes ask the policy. */
  predicate Guarded(kind: Kind) {
    kind in {Cluster, KubeadmControlPlane, MachineDeployment, Machine, Node}
  }

  /** The kinds the resource set methods write without asking. */
  predicate Unguarded(kind: Kind) {
    kind in {ConfigMap, Secret, ClusterResourceSet}
  }

  predicate Protected(o: Option<Object>) {
    o.Some? && PREVENT_DELETION in o.value.labels
  }

  /** The call is an UpdateCluster that removes the label from this cluster. */
  predicate Unprotects(call: Call, key: Key) {
    && call.Modify?
    && call.change.Relabel?
    && key == Key(Cluster, call.namespace, call.name)
    && call.change.clusterLabels.Some?
    && PREVENT_DELETION in call.change.clusterLabels.value
    && call.change.clusterLabels.value[PREVENT_DELETION] == ""
  }

  predicate SomeUnprotects(calls: seq<Call>, key: Key) {
    exists i | 0 <= i < |calls| :: Unprotects(calls[i], key)
  }

  /** Updates and creates, and everything under the unguarded kinds. */
  ghost predicate IsAllowedWrite(p: WritePolicy, calls: seq<Call>, e: Event) {
    if e.Eviction? then !p.readOnly
    else if Unguarded(e.key.kind) then true
    else
      && Guarded(e.key.kind)
      && !p.readOnly
      && e.after.Some?
      && (e.before.Some? ==>
            && IsGatedUpdate(p, e)
            && (e.key.kind in {Cluster, Machine} && Protected(e.before) && !Protected(e.after) ==>
                  SomeUnprotects(calls, e.key)))
  }

  ghost predicate NoneOurs(events: seq<Event>, j: nat, i: nat) {
    j <= i <= |events| && forall m | j <= m < i :: !IsOurs(events[m])
  }

  predicate PassesDelete(p: WritePolicy, o: Option<Object>) {
    o.Some? && CheckDelete(p, o.value.labels, o.value.annotations).None?
  }

  /** The deletion of an object under a key whose state passed CheckDelete earlier, with nothing of ours and
      perhaps something of others in between. */
  ghost predicate IsCheckedDeletion(p: WritePolicy, objects: Objects, events: seq<Event>, i: nat)
    requires i < |events|
  {
    && events[i].Write?
    && events[i].key.kind in {Cluster, Machine}
    && events[i].after.None?
    && exists j | 0 <= j <= i ::
         NoneOurs(events, j, i) && PassesDelete(p, Lookup(Replay(objects, events[..j]), events[i].key))
  }

  /** Everything this client did between s and t was allowed. */
  ghost predicate Lawful(p: WritePolicy, calls: seq<Call>, s: Sys, t: Sys) {
    && Extends(s, t)
    && var events := Since(s.world, t.world);
       forall i | 0 <= i < |events| && IsOurs(events[i]) ::
         IsAllowedWrite(p, calls, events[i]) || IsCheckedDeletion(p, s.world.objects, events, i)
  }

  lemma {:induction false} OursInHas(events: seq<Event>, i: nat)
    requires i < |events| && IsOurs(events[i])
    ensures events[i] in OursIn(events)
  {
    if i < |events| - 1 { OursInHas(events[..|events| - 1], i); }
  }

  lemma MadeLawful(p: WritePolicy, calls: seq<Call>, s: Sys, t: Sys)
    requires Extends(s, t)
    requires forall e | e in Made(s, t) :: IsAllowedWrite(p, calls, e)
    ensures Lawful(p, calls, s, t)
  {
    var events := Since(s.world, t.world);
    forall i | 0 <= i < |events| && IsOurs(events[i]) ensures IsAllowedWrite(p, calls, events[i]) {
      OursInHas(events, i);
    }
  }

  /******* Deletes *******/

  lemma MadeNothingNoneOurs(s: Sys, t: Sys)
    requires Extends(s, t) && Made(s, t) == []
    ensures NoneOurs(Since(s.world, t.world), 0, |Since(s.world, t.world)|)
  {
    var events := Since(s.world, t.world);
    forall i | 0 <= i < |events| ensures !IsOurs(events[i]) {
      if IsOurs(events[i]) { OursInHas(events, i); }
    }
  }

  lemma EraseLawful(s: Sys, p: WritePolicy, ctx: Context, key: Key, force: bool, calls: seq<Call>)
    requires Valid(s.world) && key.kind in {Cluster, Machine}
    ensures Lawful(p, calls, s, Erase(s, p, ctx, key, force).sys)
  {
    hide Valid, Later, Follows, Lawful, IsAllowedWrite, CheckDelete, Made, Fits;
    var got := Get(s, ctx, key);
    var out := Erase(s, p, ctx, key, force);
    GetFollows(s, ctx, key);
    FollowsGives(s, got.sys);
    ArriveMade(s);
    MadeLawful(p, calls, s, got.sys);
    if out.sys != got.sys {
      var o := got.result.value;
      DeleteMade(got.sys, ctx, key);
      MadeAppend(s, got.sys, out.sys);
      if Made(got.sys, out.sys) == [] {
        MadeLawful(p, calls, s, out.sys);
      } else {
        ArriveMade(got.sys);
        DeletionChecked(s, got.sys, Arrive(got.sys), out.sys, p, key, calls);
      }
    }
  }

  /** checked is the world of the Get, arrived that of the Delete. */
  lemma DeletionChecked(s: Sys, checked: Sys, arrived: Sys, t: Sys, p: WritePolicy, key: Key, calls: seq<Call>)
    requires key.kind in {Cluster, Machine}
    requires Extends(s, checked) && Made(s, checked) == [] && Recorded(s.world, checked.world)
    requires Extends(checked, arrived) && Made(checked, arrived) == []
    requires PassesDelete(p, Lookup(checked.world.objects, key))
    requires exists before ::
               t.world.history == arrived.world.history + [Write(Ours, key, before, None)]
    ensures Lawful(p, calls, s, t)
  {
    hide IsAllowedWrite, PassesDelete, Fits;
    MadeNothingNoneOurs(s, checked);
    MadeNothingNoneOurs(checked, arrived);
    var a, b := Since(s.world, checked.world), Since(checked.world, arrived.world);
    var events := Since(s.world, t.world);
    var last := |events| - 1;
    assert events[..last] == a + b;
    assert events[..|a|] == a;
    assert forall m | 0 <= m < last :: events[m] == (a + b)[m];
    assert NoneOurs(events, |a|, last);
    assert IsCheckedDeletion(p, s.world.objects, events, last);
  }
  /******* Every call is lawful *******/

  lemma ModifyLawful(s: Sys, p: WritePolicy, ctx: Context, namespace: string, name: string, change: Change)
    requires Valid(s.world)
    ensures Lawful(p, [Modify(namespace, name, change)], s, Perform(s, p, ctx, Modify(namespace, name, change)))
  {
    hide Valid, Lawful, CheckUpdate, Rewrite, Made, Arrive;
    var call := Modify(namespace, name, change);
    var key := Key(Target(change), namespace, name);
    RewriteMade(s, p, ctx, key, change);
    var t := Perform(s, p, ctx, call);
    assert [call][0] == call;
    forall e | e in Made(s, t) ensures IsAllowedWrite(p, [call], e) {
      GatedNotReadOnly(p, e);
      if key.kind in {Cluster, Machine} && Protected(e.before) && !Protected(e.after) {
        assert Unprotects([call][0], e.key);
      }
    }
    MadeLawful(p, [call], s, t);
  }

  lemma GatedNotReadOnly(p: WritePolicy, e: Event)
    requires IsGatedUpdate(p, e)
    ensures !p.readOnly
  {
  }

  lemma ScaleLawful(s: Sys, p: WritePolicy, ctx: Context, opts: ScaleOptions)
    requires Valid(s.world)
    ensures Lawful(p, [ScaleCluster(opts)], s, ScaleOutcome(s, p, ctx, opts).sys)
  {
    hide Valid, Lawful, CheckUpdate, ScaleOutcome, Arrive;
    var t := ScaleOutcome(s, p, ctx, opts).sys;
    ScaleTouchesOneField(s, p, ctx, opts);
    forall e | e in Made(s, t) ensures IsAllowedWrite(p, [ScaleCluster(opts)], e) {
      GatedNotReadOnly(p, e);
    }
    MadeLawful(p, [ScaleCluster(opts)], s, t);
  }
  lemma UpgradeLawful(s: Sys, p: WritePolicy, ctx: Context, opts: UpgradeOptions)
    requires Valid(s.world)
    ensures Lawful(p, [UpgradeCluster(opts)], s, UpgradeOutcome(s, p, ctx, opts).sys)
  {
    hide Valid, Lawful, CheckUpdate, UpgradeOutcome, Follows;
    var t := UpgradeOutcome(s, p, ctx, opts).sys;
    UpgradeWritesAPrefix(s, p, ctx, opts);
    PlanKinds(s, p, ctx, opts);
    forall e | e in Made(s, t) ensures IsAllowedWrite(p, [UpgradeCluster(opts)], e) {
      GatedNotReadOnly(p, e);
    }
    MadeLawful(p, [UpgradeCluster(opts)], s, t);
  }

  lemma {:induction false} WorkerKinds(objects: Objects, index: seq<Key>, opts: UpgradeOptions)
    ensures forall k | k in WorkerKeys(objects, index, opts) :: k.kind == MachineDeployment
  {
    if index != [] { WorkerKinds(objects, index[1..], opts); }
  }

  lemma PlanKinds(s: Sys, p: WritePolicy, ctx: Context, opts: UpgradeOptions)
    requires Valid(s.world)
    ensures forall k | k in PlanSeen(s, p, ctx, opts) :: k.kind in {KubeadmControlPlane, MachineDeployment}
  {
    ArriveFollows(s);
    var w := Arrive(s).world;
    var key := Key(Cluster, opts.namespace, opts.name);
    if key in w.objects {
      var listing := WorkerListing(s, p, ctx, w.objects[key], opts.target);
      WorkerKinds(listing.objects, listing.index, opts);
    }
  }

  lemma CreateLawful(s: Sys, p: WritePolicy, ctx: Context, call: Call)
    requires Valid(s.world) && (call.CreateCluster? || call.CreateDeployment?)
    ensures Lawful(p, [call], s, Perform(s, p, ctx, call))
  {
    hide Valid, Lawful, Made, MakeCluster, MakeDeployment;
    match call {
      case CreateCluster(opts) => MakeClusterMade(s, p, ctx, opts);
      case CreateDeployment(opts) => MakeDeploymentMade(s, p, ctx, opts);
    }
    MadeLawful(p, [call], s, Perform(s, p, ctx, call));
  }

  lemma CordonLawful(s: Sys, p: WritePolicy, ctx: Context, opts: NodeOptions)
    requires Valid(s.world)
    ensures Lawful(p, [CordonNode(opts)], s, Cordon(s, p, ctx, opts).sys)
  {
    hide Valid, Lawful, CheckUpdate, Rewrite, Made, Follows, Arrive;
    var t := Cordon(s, p, ctx, opts).sys;
    var named := NodeNameOf(s, ctx, opts);
    NodeNameMade(s, ctx, opts);
    if named.result.Success? {
      var key := Key(Node, "", named.result.value);
      RewriteMade(named.sys, p, ctx, key, SetUnschedulable(!opts.uncordon));
      MadeAppend(s, named.sys, t);
      forall e | e in Made(s, t) ensures IsAllowedWrite(p, [CordonNode(opts)], e) {
        GatedNotReadOnly(p, e);
      }
    }
    MadeLawful(p, [CordonNode(opts)], s, t);
  }

  lemma DrainLawful(s: Sys, p: WritePolicy, ctx: Context, opts: NodeOptions)
    requires Valid(s.world)
    ensures Lawful(p, [DrainNode(opts)], s, DrainAll(s, p, ctx, opts).sys)
  {
    hide Valid, Lawful, CheckUpdate, DrainAll, Made, Answered;
    var t := DrainAll(s, p, ctx, opts).sys;
    var made := Made(s, t);
    DrainReportIsExact(s, p, ctx, opts);
    forall e | e in made ensures IsAllowedWrite(p, [DrainNode(opts)], e) {
      GatedNotReadOnly(p, made[0]);
      if e != made[0] { assert e in made[1..]; }
    }
    MadeLawful(p, [DrainNode(opts)], s, t);
  }

  lemma SetLawful(s: Sys, p: WritePolicy, ctx: Context, opts: SetOptions)
    requires Valid(s.world)
    ensures Lawful(p, [CreateResourceSet(opts)], s, MakeSet(s, ctx, opts).sys)
  {
    hide Valid, Lawful, MakeSet, Made, Upserted, Follows;
    var t := MakeSet(s, ctx, opts).sys;
    ResourceSetIsLast(s, ctx, opts);
    MadeLawful(p, [CreateResourceSet(opts)], s, t);
  }

  lemma RemoveSetLawful(s: Sys, p: WritePolicy, ctx: Context, namespace: string, name: string)
    ensures Lawful(p, [DeleteResourceSet(namespace, name)], s, RemoveSet(s, ctx, namespace, name).sys)
  {
    hide Lawful, Made, Arrive;
    var key := Key(ClusterResourceSet, namespace, name);
    var got := Get(s, ctx, key);
    ArriveMade(s);
    DeleteMade(got.sys, ctx, key);
    MadeAppend(s, got.sys, Delete(got.sys, ctx, key).sys);
    MadeLawful(p, [DeleteResourceSet(namespace, name)], s, RemoveSet(s, ctx, namespace, name).sys);
  }

  lemma PerformLawful(s: Sys, p: WritePolicy, ctx: Context, call: Call)
    requires Valid(s.world)
    ensures Lawful(p, [call], s, Perform(s, p, ctx, call))
  {
    hide Valid, Lawful, Rewrite, Erase, UpgradeOutcome, ScaleOutcome, MakeCluster, MakeDeployment, Cordon, DrainAll,
         MakeSet, RemoveSet, Watch, ListStatuses, SingleStatus;
    match call {
      case Modify(namespace, name, change) => ModifyLawful(s, p, ctx, namespace, name, change);
      case DeleteCluster(namespace, name) => EraseLawful(s, p, ctx, Key(Cluster, namespace, name), false, [call]);
      case DeleteMachine(namespace, name, force) =>
        EraseLawful(s, p, ctx, Key(Machine, namespace, name), force, [call]);
      case UpgradeCluster(opts) => UpgradeLawful(s, p, ctx, opts);
      case ScaleCluster(opts) => ScaleLawful(s, p, ctx, opts);
      case CreateCluster(opts) => CreateLawful(s, p, ctx, call);
      case CreateDeployment(opts) => CreateLawful(s, p, ctx, call);
      case CordonNode(opts) => CordonLawful(s, p, ctx, opts);
      case DrainNode(opts) => DrainLawful(s, p, ctx, opts);
      case CreateResourceSet(opts) => SetLawful(s, p, ctx, opts);
      case DeleteResourceSet(namespace, name) => RemoveSetLawful(s, p, ctx, namespace, name);
      case ListClusters(namespace, filter) =>
        ListStatusesOnlyReads(s, ctx, namespace, filter);
        MadeLawful(p, [call], s, ListStatuses(s, ctx, namespace, filter).sys);
      case ReadStatus(namespace, name) =>
        SingleStatusOnlyReads(s, ctx, namespace, name);
        MadeLawful(p, [call], s, SingleStatus(s, ctx, namespace, name).sys);
      case Look(requests) =>
        WatchFollows(s, requests);
        MadeLawful(p, [call], s, Watch(s, requests));
    }
  }

  lemma LawfulAppend(p: WritePolicy, a: seq<Call>, b: seq<Call>, s: Sys, t: Sys, u: Sys)
    requires Lawful(p, a, s, t) && Lawful(p, b, t, u) && Recorded(s.world, t.world)
    ensures Lawful(p, a + b, s, u)
  {
    hide CheckDelete, Fits, Recorded, IsAllowedWrite, IsCheckedDeletion, Replay, ReplayIndex;
    RecordedGives(s, t);
    var first, second := Since(s.world, t.world), Since(t.world, u.world);
    var events := Since(s.world, u.world);
    assert events == first + second;
    forall i | 0 <= i < |events| && IsOurs(events[i])
      ensures IsAllowedWrite(p, a + b, events[i]) || IsCheckedDeletion(p, s.world.objects, events, i)
    {
      if i < |first| {
        assert events[i] == first[i];
        AllowedByMore(p, a, b, events[i]);
        if IsCheckedDeletion(p, s.world.objects, first, i) {
          CheckedDeletionExtends(p, s.world.objects, first, second, i);
        }
      } else {
        assert events[i] == second[i - |first|];
        AllowedByMore(p, a, b, events[i]);
        if IsCheckedDeletion(p, t.world.objects, second, i - |first|) {
          CheckedDeletionShifts(p, s.world.objects, first, second, i - |first|);
        }
      }
    }
  }

  lemma RecordedGives(s: Sys, t: Sys)
    requires Recorded(s.world, t.world)
    ensures Extends(s, t) && t.world.objects == Replay(s.world.objects, Since(s.world, t.world))
  {
  }

  lemma CheckedDeletionExtends(p: WritePolicy, objects: Objects, first: seq<Event>, second: seq<Event>, i: nat)
    requires i < |first| && IsCheckedDeletion(p, objects, first, i)
    ensures IsCheckedDeletion(p, objects, first + second, i)
  {
    hide PassesDelete, Replay;
    var events := first + second;
    var j :| 0 <= j <= i && NoneOurs(first, j, i) && PassesDelete(p, Lookup(Replay(objects, first[..j]), first[i].key));
    assert events[..j] == first[..j];
    assert NoneOurs(events, j, i);
  }

  lemma CheckedDeletionShifts(p: WritePolicy, objects: Objects, first: seq<Event>, second: seq<Event>, i: nat)
    requires i < |second| && IsCheckedDeletion(p, Replay(objects, first), second, i)
    ensures IsCheckedDeletion(p, objects, first + second, |first| + i)
  {
    hide PassesDelete, Fits, Replay, ReplayIndex;
    var events := first + second;
    var j :| 0 <= j <= i && NoneOurs(second, j, i)
             && PassesDelete(p, Lookup(Replay(Replay(objects, first), second[..j]), second[i].key));
    assert events[..|first| + j] == first + second[..j];
    ReplayAppend(objects, [], first, second[..j]);
    assert NoneOurs(events, |first| + j, |first| + i) by {
      assert forall m | |first| + j <= m < |first| + i :: events[m] == second[m - |first|];
    }
  }

  lemma AllowedByMore(p: WritePolicy, a: seq<Call>, b: seq<Call>, e: Event)
    ensures IsAllowedWrite(p, a, e) || IsAllowedWrite(p, b, e) ==> IsAllowedWrite(p, a + b, e)
  {
    if !e.Eviction? {
      if SomeUnprotects(a, e.key) {
        var i :| 0 <= i < |a| && Unprotects(a[i], e.key);
        assert Unprotects((a + b)[i], e.key);
      } else if SomeUnprotects(b, e.key) {
        var i :| 0 <= i < |b| && Unprotects(b[i], e.key);
        assert Unprotects((a + b)[|a| + i], e.key);
      }
    }
  }

  lemma ServeLawful(s: Sys, p: WritePolicy, request: Request)
    requires Valid(s.world)
    ensures Lawful(p, [request.call], s, Serve(s, p, request))
  {
    hide Valid, Lawful, Perform, Follows, Recorded;
    BeginFollows(s);
    FollowsGives(s, Begin(s));
    PerformLawful(Begin(s), p, request.ctx, request.call);
    MadeNothing(s, Begin(s));
    MadeLawful(p, [], s, Begin(s));
    LawfulAppend(p, [], [request.call], s, Begin(s), Serve(s, p, request));
    assert [] + [request.call] == [request.call];
  }

  /** Over every run, under every policy and whoever else writes: each write of a policed kind asked the
      policy about the very state it replaced; each deletion about a state of the object between which and the
      deletion this client did nothing else; under a read-only policy there is neither. */
  lemma {:induction false} RunIsLawful(s: Sys, p: WritePolicy, requests: seq<Request>)
    requires Valid(s.world)
    ensures Lawful(p, CallsOf(requests), s, Run(s, p, requests))
    decreases |requests|
  {
    hide Valid, Lawful, Serve, Follows, Recorded;
    if requests == [] {
      MadeNothing(s, s);
      MadeLawful(p, CallsOf(requests), s, s);
    } else {
      var t := Serve(s, p, requests[0]);
      ServeFollows(s, p, requests[0]);
      FollowsGives(s, t);
      ServeLawful(s, p, requests[0]);
      RunIsLawful(t, p, requests[1..]);
      LawfulAppend(p, [requests[0].call], CallsOf(requests[1..]), s, t, Run(s, p, requests));
      assert CallsOf(requests) == [requests[0].call] + CallsOf(requests[1..]);
    }
  }
}
