/** What repeating a write does (pkg/mcp/handlers/readonly.go, idempotentWrites; pkg/capi/client.go). */
module Idempotence {
  import opened Wrappers
  import opened Policy
  import opened Store
  import opened Interleaving
  import opened Changes
  import opened Capi
  import opened Scaling
  import opened Runs

  /******* One change twice *******/

  /** The changes that write the time of the call. */
  predicate StampsTime(change: Change) {
    change.Remediate? || change.Rollout?
  }

  /** Repeating a change that does not stamp the time changes nothing more. */
  lemma ChangeIdempotent(change: Change, o: Object, now: nat, later: nat)
    requires KindOf(o.body) == Target(change) && !StampsTime(change)
    ensures Apply(change, Apply(change, o, now), later) == Apply(change, o, now)
  {
    match change {
      case Relabel(labels, annotations) =>
        OverlayOptionIdempotent(o.labels, labels);
        OverlayOptionIdempotent(o.annotations, annotations);
      case Configure(_, _, _, _, labels, annotations) =>
        OverlayOptionIdempotent(o.labels, labels);
        OverlayOptionIdempotent(o.annotations, annotations);
      case _ =>
    }
  }

  /** Both stamps are stored in whole seconds: repeating such a change is without effect exactly within the same
      second. */
  lemma StampedChangeRepeatsIff(change: Change, o: Object, now: nat, later: nat)
    requires KindOf(o.body) == Target(change) && StampsTime(change)
    ensures Apply(change, Apply(change, o, now), later) == Apply(change, o, now) <==> now / SECOND == later / SECOND
  {
    var once := Apply(change, o, now);
    var twice := Apply(change, once, later);
    if change.Remediate? {
      assert once.annotations[REMEDIATE] == Decimal(now / SECOND);
      assert twice.annotations[REMEDIATE] == Decimal(later / SECOND);
      assert twice.annotations == once.annotations[REMEDIATE := Decimal(later / SECOND)];
      if once == twice { DecimalIsInjective(now / SECOND, later / SECOND); }
    }
  }

  /** Two option patches in a row as one. */
  function Merged(first: Option<Metadata>, second: Option<Metadata>): Option<Metadata> {
    if first.Some? && second.Some? then Some(first.value + second.value) else Or(second, first)
  }

  lemma OverlayOptionComposes(m: Metadata, first: Option<Metadata>, second: Option<Metadata>)
    ensures OverlayOption(OverlayOption(m, first), second) == OverlayOption(m, Merged(first, second))
  {
    if first.Some? && second.Some? { OverlayComposes(m, first.value, second.value); }
  }

  /** Two updates of the same kind of object. */
  predicate Composable(first: Change, second: Change) {
    (first.Relabel? && second.Relabel?) || (first.Configure? && second.Configure?)
  }

  /** The one update that two updates in a row amount to. */
  function Composed(first: Change, second: Change): Change
    requires Composable(first, second)
  {
    match second
    case Relabel(labels, annotations) =>
      Relabel(Merged(first.clusterLabels, labels), Merged(first.clusterAnnotations, annotations))
    case Configure(version, replicas, minReady, drainTimeout, labels, annotations) =>
      Configure(Or(version, first.newVersion), Or(replicas, first.newReplicas), Or(minReady, first.minReadySeconds),
                Or(drainTimeout, first.nodeDrainTimeout), Merged(first.labels, labels),
                Merged(first.annotations, annotations))
  }

  lemma UpdatesCompose(first: Change, second: Change, o: Object, now: nat, later: nat)
    requires Composable(first, second)
    requires KindOf(o.body) == Target(first)
    ensures Apply(second, Apply(first, o, now), later) == Apply(Composed(first, second), o, now)
  {
    match first {
      case Relabel(labels, annotations) =>
        OverlayOptionComposes(o.labels, labels, second.clusterLabels);
        OverlayOptionComposes(o.annotations, annotations, second.clusterAnnotations);
      case Configure(_, _, _, _, labels, annotations) =>
        OverlayOptionComposes(o.labels, labels, second.labels);
        OverlayOptionComposes(o.annotations, annotations, second.annotations);
    }
  }

  /******* One call twice *******/

  /** What a rewrite without faults and other writers leaves: a new state under key, or the same world. */
  function Rewritten(w: World, p: WritePolicy, ctx: Context, key: Key, change: Change): World
    requires Valid(w) && key.kind == Target(change)
  {
    if Done(ctx, w) || key !in w.objects
       || CheckUpdate(p, w.objects[key].labels, w.objects[key].annotations).Some? then w
    else Commit(w, Ours, key, Some(Apply(change, w.objects[key], w.now)))
  }

  lemma CalmRewrite(w: World, p: WritePolicy, ctx: Context, key: Key, change: Change)
    requires Valid(w) && key.kind == Target(change)
    ensures Rewrite(Sys(w, []), p, ctx, key, change).sys == Sys(Rewritten(w, p, ctx, key, change), [])
  {
    hide CheckUpdate, Apply, Valid;
    CalmArrive(w);
  }

  lemma RewrittenKeepsValid(w: World, p: WritePolicy, ctx: Context, key: Key, change: Change)
    requires Valid(w) && key.kind == Target(change)
    ensures Valid(Rewritten(w, p, ctx, key, change))
  {
    hide Valid, Follows;
    CalmRewrite(w, p, ctx, key, change);
    RewriteFollows(Sys(w, []), p, ctx, key, change);
    FollowsGives(Sys(w, []), Sys(Rewritten(w, p, ctx, key, change), []));
  }

  /** A write of the state that is already there. */
  lemma CommitSame(w: World, key: Key, o: Object)
    requires key in w.objects && o == w.objects[key]
    ensures Content(Commit(w, Ours, key, Some(o)).objects) == Content(w.objects)
  {
  }

  lemma RewrittenTwice(w: World, p: WritePolicy, ctx: Context, key: Key, change: Change)
    requires Valid(w) && key.kind == Target(change) && !StampsTime(change)
    ensures var once := Rewritten(w, p, ctx, key, change);
            && Valid(once)
            && Content(Rewritten(once, p, ctx, key, change).objects) == Content(once.objects)
  {
    hide Valid, CheckUpdate, Content;
    var once := Rewritten(w, p, ctx, key, change);
    RewrittenKeepsValid(w, p, ctx, key, change);
    if once != w {
      var o := w.objects[key];
      KindOfStored(w, key);
      ChangeIdempotent(change, o, w.now, once.now);
      ApplyIgnoresVersion(change, Apply(change, o, w.now), w.rv, once.now);
      CommitSame(once, key, once.objects[key]);
    }
  }

  lemma ApplyIgnoresVersion(change: Change, o: Object, rv: nat, now: nat)
    requires KindOf(o.body) == Target(change)
    ensures Apply(change, o.(rv := rv), now) == Apply(change, o, now).(rv := rv)
  {
  }

  /** Scaling a topology that is already scaled changes nothing. */
  lemma ScaledTopologyIdempotent(topology: Topology, opts: ScaleOptions, md: Result<Object, ApiError>)
    requires ScaledTopology(topology, opts, md).Some?
    ensures var scaled := ScaledTopology(topology, opts, md).value; ScaledTopology(scaled, opts, md) == Some(scaled)
  {
    if opts.target != CONTROL_PLANE {
      var name := TopologyName(md, opts.deployment);
      var workers := topology.workers.value;
      var scaled := WithReplicas(workers, name, opts.replicas).value;
      var i, j := FirstNamed(workers, name), FirstNamed(scaled, name);
      assert scaled[i].name == name;
      assert forall k | 0 <= k < i :: scaled[k].name == workers[k].name;
      assert j == i;
      assert scaled[i := scaled[i].(replicas := Some(opts.replicas))] == scaled;
    }
  }

  /** The one rewrite a scaling amounts to, if it gets that far. */
  function ScaleRewrite(objects: Objects, opts: ScaleOptions): Option<(Key, Change)> {
    var key := Key(Cluster, opts.namespace, opts.name);
    var deployment := Key(MachineDeployment, opts.namespace, opts.deployment);
    if opts.replicas < 0 || opts.replicas > MAX_INT32 || key !in objects || !objects[key].body.ClusterBody? then None
    else if opts.target != CONTROL_PLANE && (opts.target != WORKERS || opts.deployment == "") then None
    else if objects[key].body.topology.Some? then
      var md := if deployment in objects then Success(objects[deployment]) else Failure(NotFound);
      match ScaledTopology(objects[key].body.topology.value, opts, md)
      case None => None
      case Some(topology) => Some((key, SetTopology(topology)))
    else if opts.target == CONTROL_PLANE then
      Some((Key(KubeadmControlPlane, opts.namespace, opts.name), ScaleControlPlane(opts.replicas)))
    else Some((deployment, ScaleDeployment(opts.replicas)))
  }

  function AfterScaling(w: World, p: WritePolicy, ctx: Context, opts: ScaleOptions): World
    requires Valid(w)
  {
    match ScaleRewrite(w.objects, opts)
    case None => w
    case Some((key, change)) => Rewritten(w, p, ctx, key, change)
  }

  lemma CalmScale(w: World, p: WritePolicy, ctx: Context, opts: ScaleOptions)
    requires Valid(w)
    ensures ScaleOutcome(Sys(w, []), p, ctx, opts).sys == Sys(AfterScaling(w, p, ctx, opts), [])
  {
    hide Valid, CheckUpdate, WithReplicas;
    CalmArrive(w);
    var key := Key(Cluster, opts.namespace, opts.name);
    if key in w.objects {
      KindOfStored(w, key);
      if w.objects[key].body.topology.None? {
        match ScaleRewrite(w.objects, opts) {
          case None =>
          case Some((target, change)) => CalmRewrite(w, p, ctx, target, change);
        }
      }
    }
  }

  /** The rewrite a scaling amounts to is the same after it was carried out. */
  lemma ScaleRewriteStable(objects: Objects, once: Objects, opts: ScaleOptions, now: nat, rv: nat)
    requires ScaleRewrite(objects, opts).Some?
    requires var (key, change) := ScaleRewrite(objects, opts).value;
             && key in objects
             && KindOf(objects[key].body) == Target(change)
             && once == objects[key := Apply(change, objects[key], now).(rv := rv)]
    ensures ScaleRewrite(once, opts) == ScaleRewrite(objects, opts)
  {
    hide ScaledTopology;
    var (key, change) := ScaleRewrite(objects, opts).value;
    if change.SetTopology? {
      var deployment := Key(MachineDeployment, opts.namespace, opts.deployment);
      var md := if deployment in objects then Success(objects[deployment]) else Failure(NotFound);
      ScaledTopologyIdempotent(objects[key].body.topology.value, opts, md);
    }
  }

  lemma ScaledTwice(w: World, p: WritePolicy, ctx: Context, opts: ScaleOptions)
    requires Valid(w)
    ensures var once := AfterScaling(w, p, ctx, opts);
            && Valid(once)
            && Content(AfterScaling(once, p, ctx, opts).objects) == Content(once.objects)
  {
    hide Valid, CheckUpdate, Content, Commit;
    match ScaleRewrite(w.objects, opts) {
      case None =>
      case Some((key, change)) =>
        RewrittenTwice(w, p, ctx, key, change);
        var once := AfterScaling(w, p, ctx, opts);
        if once != w {
          RewrittenElsewhere(w, p, ctx, key, change);
          ScaleRewriteStable(w.objects, once.objects, opts, w.now, w.rv);
        }
    }
  }

  /** A rewrite that happened left everything else alone. */
  lemma RewrittenElsewhere(w: World, p: WritePolicy, ctx: Context, key: Key, change: Change)
    requires Valid(w) && key.kind == Target(change)
    requires Rewritten(w, p, ctx, key, change) != w
    ensures var once := Rewritten(w, p, ctx, key, change);
            && key in w.objects
            && KindOf(w.objects[key].body) == key.kind
            && key in once.objects
            && once.objects == w.objects[key := Apply(change, w.objects[key], w.now).(rv := w.rv)]
  {
  }

  function NodeNamed(objects: Objects, opts: NodeOptions): Option<string> {
    var key := Key(Machine, opts.namespace, opts.machineName);
    if opts.nodeName != "" then Some(opts.nodeName)
    else if opts.machineName == "" || key !in objects || !objects[key].body.MachineBody? then None
    else objects[key].body.nodeRef
  }

  function AfterCordon(w: World, p: WritePolicy, ctx: Context, opts: NodeOptions): World
    requires Valid(w)
  {
    match NodeNamed(w.objects, opts)
    case None => w
    case Some(name) => Rewritten(w, p, ctx, Key(Node, "", name), SetUnschedulable(!opts.uncordon))
  }

  lemma CalmCordon(w: World, p: WritePolicy, ctx: Context, opts: NodeOptions)
    requires Valid(w)
    ensures Cordon(Sys(w, []), p, ctx, opts).sys == Sys(AfterCordon(w, p, ctx, opts), [])
  {
    hide Valid, CheckUpdate, Rewrite;
    CalmArrive(w);
    var key := Key(Machine, opts.namespace, opts.machineName);
    if key in w.objects { KindOfStored(w, key); }
    match NodeNamed(w.objects, opts) {
      case None =>
      case Some(name) => CalmRewrite(w, p, ctx, Key(Node, "", name), SetUnschedulable(!opts.uncordon));
    }
  }

  lemma CordonedTwice(w: World, p: WritePolicy, ctx: Context, opts: NodeOptions)
    requires Valid(w)
    ensures var once := AfterCordon(w, p, ctx, opts);
            && Valid(once)
            && Content(AfterCordon(once, p, ctx, opts).objects) == Content(once.objects)
  {
    hide Valid, CheckUpdate, Content, Commit;
    match NodeNamed(w.objects, opts) {
      case None =>
      case Some(name) =>
        var key, change := Key(Node, "", name), SetUnschedulable(!opts.uncordon);
        RewrittenTwice(w, p, ctx, key, change);
        var once := AfterCordon(w, p, ctx, opts);
        if once != w {
          RewrittenElsewhere(w, p, ctx, key, change);
          var machine := Key(Machine, opts.namespace, opts.machineName);
          assert Lookup(once.objects, machine) == Lookup(w.objects, machine);
          assert NodeNamed(once.objects, opts) == Some(name);
        }
    }
  }

  /** The calls the idempotent tools make. */
  predicate Repeatable(call: Call) {
    (call.Modify? && !StampsTime(call.change)) || call.ScaleCluster? || call.CordonNode?
  }

  /** From every store and under every policy, a second identical call leaves the objects as the first did, also
      when the first set an ownership marker that gets the second refused. */
  lemma CallIsIdempotent(w: World, p: WritePolicy, ctx: Context, call: Call)
    requires Valid(w) && Repeatable(call)
    ensures var once := Perform(Sys(w, []), p, ctx, call);
            && Valid(once.world)
            && Content(Perform(once, p, ctx, call).world.objects) == Content(once.world.objects)
  {
    hide Valid, Content, Rewritten, AfterScaling, AfterCordon;
    match call {
      case Modify(namespace, name, change) =>
        var key := Key(Target(change), namespace, name);
        CalmRewrite(w, p, ctx, key, change);
        RewrittenTwice(w, p, ctx, key, change);
        CalmRewrite(Rewritten(w, p, ctx, key, change), p, ctx, key, change);
      case ScaleCluster(opts) =>
        CalmScale(w, p, ctx, opts);
        ScaledTwice(w, p, ctx, opts);
        CalmScale(AfterScaling(w, p, ctx, opts), p, ctx, opts);
      case CordonNode(opts) =>
        CalmCordon(w, p, ctx, opts);
        CordonedTwice(w, p, ctx, opts);
        CalmCordon(AfterCordon(w, p, ctx, opts), p, ctx, opts);
    }
  }

  predicate Refuses(w: World, p: WritePolicy, key: Key) {
    key in w.objects && CheckUpdate(p, w.objects[key].labels, w.objects[key].annotations).Some?
  }

  /** Two updates of one object in a row leave what one update with the overlaid patch leaves, unless the first
      makes the object managed and so gets the second refused; then they leave what the first leaves. */
  lemma UpdateCallsCompose(w: World, p: WritePolicy, ctx: Context, key: Key, first: Change, second: Change)
    requires Valid(w) && Composable(first, second)
    requires key.kind == Target(first) == Target(second) == Target(Composed(first, second))
    ensures Valid(Rewritten(w, p, ctx, key, first))
    ensures var once := Rewritten(w, p, ctx, key, first);
            Content(Rewritten(once, p, ctx, key, second).objects) ==
            Content((if Refuses(once, p, key) then once
                     else Rewritten(w, p, ctx, key, Composed(first, second))).objects)
  {
    hide Valid, CheckUpdate, Apply, Composed;
    var once := Rewritten(w, p, ctx, key, first);
    RewrittenKeepsValid(w, p, ctx, key, first);
    if once != w {
      var o := w.objects[key];
      KindOfStored(w, key);
      UpdatesCompose(first, second, o, w.now, once.now);
      ApplyIgnoresVersion(second, Apply(first, o, w.now), w.rv, once.now);
    }
  }
}
