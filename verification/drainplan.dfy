/** Which pods of a node a drain evicts, leaves or refuses to touch (pkg/capi/drain.go, drainPlan). */
module DrainPlanning {
  import opened Wrappers
  import opened Store
  import opened Capi

  datatype Verdict = Elsewhere | Leave | Refuse | EvictIt

  predicate Finished(pod: Object)
    requires pod.body.PodBody?
  {
    pod.body.phase == Succeeded || pod.body.phase == Failed
  }

  /** hasLocalStorage: an emptyDir among the volumes. */
  predicate HasLocalStorage(emptyDirs: seq<bool>) {
    true in emptyDirs
  }

  function Judge(pod: Object, node: string, opts: NodeOptions): Verdict
    requires pod.body.PodBody?
  {
    if pod.body.nodeName != node then Elsewhere
    else if IsMirror(pod) then Leave
    else if Finished(pod) then EvictIt
    else if IsDaemonSetPod(pod) then (if opts.ignoreDaemonSets then Leave else Refuse)
    else if ControllerOf(pod.body.owners).None? && !opts.force then Refuse
    else if HasLocalStorage(pod.body.emptyDirs) && !opts.deleteLocalData then Refuse
    else EvictIt
  }

  predicate ArePods(pods: seq<Item>) {
    forall i | 0 <= i < |pods| :: pods[i].state.body.PodBody?
  }

  /** The pods with one verdict, in list order. */
  function Pick(pods: seq<Item>, node: string, opts: NodeOptions, verdict: Verdict): (r: seq<Item>)
    requires ArePods(pods)
    ensures ArePods(r)
  {
    if pods == [] then []
    else
      var rest := Pick(pods[..|pods| - 1], node, opts, verdict);
      var last := pods[|pods| - 1];
      if Judge(last.state, node, opts) == verdict then rest + [last] else rest
  }

  function Keys(pods: seq<Item>): (r: seq<Key>)
    ensures |r| == |pods| && forall i | 0 <= i < |r| :: r[i] == pods[i].key
  {
    seq(|pods|, i requires 0 <= i < |pods| => pods[i].key)
  }

  method AnyEmptyDir(emptyDirs: seq<bool>) returns (found: bool)
    ensures found <==> HasLocalStorage(emptyDirs)
  {
    var i := 0;
    while i < |emptyDirs|
      invariant i <= |emptyDirs|
      invariant !HasLocalStorage(emptyDirs[..i])
    {
      if emptyDirs[i] { return true; }
      i := i + 1;
    }
    return false;
  }

  method DrainPlan(pods: seq<Item>, nodeName: string, opts: NodeOptions)
    returns (evict: seq<Item>, skipped: seq<Key>, refusals: seq<Key>)
    requires ArePods(pods)
    ensures evict == Pick(pods, nodeName, opts, EvictIt)
    ensures skipped == Keys(Pick(pods, nodeName, opts, Leave))
    ensures refusals == Keys(Pick(pods, nodeName, opts, Refuse))
  {
    evict, skipped, refusals := [], [], [];
    var i := 0;
    while i < |pods|
      invariant i <= |pods|
      invariant evict == Pick(pods[..i], nodeName, opts, EvictIt)
      invariant skipped == Keys(Pick(pods[..i], nodeName, opts, Leave))
      invariant refusals == Keys(Pick(pods[..i], nodeName, opts, Refuse))
    {
      assert pods[..i + 1][..i] == pods[..i];
      var pod := pods[i];
      i := i + 1;
      if pod.state.body.nodeName != nodeName { continue; }
      if MIRROR in pod.state.annotations {
        skipped := skipped + [pod.key];
        continue;
      }
      if pod.state.body.phase == Succeeded || pod.state.body.phase == Failed {
        evict := evict + [pod];
        continue;
      }
      var controller := ControllerOf(pod.state.body.owners);
      var local := AnyEmptyDir(pod.state.body.emptyDirs);
      if controller.Some? && controller.value.kind == "DaemonSet" {
        if opts.ignoreDaemonSets {
          skipped := skipped + [pod.key];
        } else {
          refusals := refusals + [pod.key];
        }
      } else if controller.None? && !opts.force {
        refusals := refusals + [pod.key];
      } else if local && !opts.deleteLocalData {
        refusals := refusals + [pod.key];
      } else {
        evict := evict + [pod];
      }
    }
    assert pods[..i] == pods;
  }

  /** The plan loses no pod and invents none: every listed pod is in exactly one class. */
  lemma {:induction false} PlanPartitions(pods: seq<Item>, node: string, opts: NodeOptions)
    requires ArePods(pods)
    ensures multiset(pods) ==
            multiset(Pick(pods, node, opts, EvictIt)) + multiset(Pick(pods, node, opts, Leave))
            + multiset(Pick(pods, node, opts, Refuse)) + multiset(Pick(pods, node, opts, Elsewhere))
  {
    if pods != [] {
      assert pods == pods[..|pods| - 1] + [pods[|pods| - 1]];
      PlanPartitions(pods[..|pods| - 1], node, opts);
    }
  }

  /** List order is kept: a pod stands in its class behind exactly the pods of that class listed before it. */
  lemma {:induction false} PlanKeepsOrder(pods: seq<Item>, node: string, opts: NodeOptions, i: nat)
    requires ArePods(pods) && i < |pods|
    ensures var verdict := Judge(pods[i].state, node, opts);
            var chosen := Pick(pods, node, opts, verdict);
            var before := |Pick(pods[..i], node, opts, verdict)|;
            before < |chosen| && chosen[before] == pods[i]
  {
    if i < |pods| - 1 {
      PlanKeepsOrder(pods[..|pods| - 1], node, opts, i);
      assert pods[..|pods| - 1][..i] == pods[..i];
    }
  }

  lemma {:induction false} PickedAreJudged(pods: seq<Item>, node: string, opts: NodeOptions, verdict: Verdict)
    requires ArePods(pods)
    ensures forall i | 0 <= i < |Pick(pods, node, opts, verdict)| ::
              && Pick(pods, node, opts, verdict)[i] in pods
              && Judge(Pick(pods, node, opts, verdict)[i].state, node, opts) == verdict
    ensures forall i | 0 <= i < |pods| && Judge(pods[i].state, node, opts) == verdict ::
              pods[i] in Pick(pods, node, opts, verdict)
  {
    if pods != [] { PickedAreJudged(pods[..|pods| - 1], node, opts, verdict); }
  }

  /** Every option that is on in opts is on in wider. */
  predicate AllowsMore(opts: NodeOptions, wider: NodeOptions) {
    && (opts.ignoreDaemonSets ==> wider.ignoreDaemonSets)
    && (opts.deleteLocalData ==> wider.deleteLocalData)
    && (opts.force ==> wider.force)
  }

  /** Turning options on never adds a refusal and never changes what happens to a pod already accepted;
      with all three on nothing is refused. */
  lemma OptionsOnlyWiden(pods: seq<Item>, node: string, opts: NodeOptions, wider: NodeOptions, pod: Item)
    requires ArePods(pods) && AllowsMore(opts, wider)
    ensures pod in Pick(pods, node, wider, Refuse) ==> pod in Pick(pods, node, opts, Refuse)
    ensures pod in Pick(pods, node, opts, EvictIt) ==> pod in Pick(pods, node, wider, EvictIt)
    ensures pod in Pick(pods, node, opts, Leave) ==> pod in Pick(pods, node, wider, Leave)
    ensures wider.ignoreDaemonSets && wider.deleteLocalData && wider.force ==> Pick(pods, node, wider, Refuse) == []
  {
    PickedAreJudged(pods, node, wider, Refuse);
    PickedAreJudged(pods, node, opts, Refuse);
    PickedAreJudged(pods, node, wider, EvictIt);
    PickedAreJudged(pods, node, opts, EvictIt);
    PickedAreJudged(pods, node, wider, Leave);
    PickedAreJudged(pods, node, opts, Leave);
    var refused := Pick(pods, node, wider, Refuse);
    assert refused != [] ==> refused[0] in pods;
  }

  /** Whatever the options, a planned eviction is of a pod on this node, never of a mirror pod and never of
      an unfinished DaemonSet pod; and every pod left in place is one of those. */
  lemma PlanSparesExemptPods(pods: seq<Item>, node: string, opts: NodeOptions, pod: Item)
    requires ArePods(pods)
    ensures pod in Pick(pods, node, opts, EvictIt) ==>
              && pod in pods
              && OnNode(pod.state, node)
              && !IsMirror(pod.state)
              && (IsDaemonSetPod(pod.state) ==> Finished(pod.state))
    ensures pod in Pick(pods, node, opts, Leave) ==> pod in pods && OnNode(pod.state, node) && Exempt(pod.state)
    ensures pod in pods && OnNode(pod.state, node) ==>
              || pod in Pick(pods, node, opts, EvictIt)
              || pod in Pick(pods, node, opts, Leave)
              || pod in Pick(pods, node, opts, Refuse)
  {
    PickedAreJudged(pods, node, opts, EvictIt);
    PickedAreJudged(pods, node, opts, Leave);
    PickedAreJudged(pods, node, opts, Refuse);
  }

  /******* What the classes mean, in the pod's own fields *******/

  /** The first owner that is the controller is a DaemonSet. */
  predicate BelongsToDaemonSet(owners: seq<OwnerReference>) {
    exists i | 0 <= i < |owners| ::
      && owners[i].controller
      && owners[i].kind == "DaemonSet"
      && forall j | 0 <= j < i :: !owners[j].controller
  }

  /** No owner is the controller. */
  predicate HasNoController(owners: seq<OwnerReference>) {
    forall i | 0 <= i < |owners| :: !owners[i].controller
  }

  lemma {:induction false} ControllerIsTheFirst(owners: seq<OwnerReference>)
    ensures ControllerOf(owners).None? <==> HasNoController(owners)
    ensures ControllerOf(owners).Some? && ControllerOf(owners).value.kind == "DaemonSet" <==> BelongsToDaemonSet(owners)
  {
    if owners != [] && !owners[0].controller {
      var rest := owners[1..];
      ControllerIsTheFirst(rest);
      assert forall i | 0 <= i < |rest| :: rest[i] == owners[i + 1];
      if BelongsToDaemonSet(rest) {
        var i :| 0 <= i < |rest| && rest[i].controller && rest[i].kind == "DaemonSet"
                 && forall j | 0 <= j < i :: !rest[j].controller;
        assert owners[i + 1].controller;
        forall j | 0 <= j < i + 1 ensures !owners[j].controller {
          if j > 0 { assert !rest[j - 1].controller; }
        }
      }
      if BelongsToDaemonSet(owners) {
        var i :| 0 <= i < |owners| && owners[i].controller && owners[i].kind == "DaemonSet"
                 && forall j | 0 <= j < i :: !owners[j].controller;
        assert rest[i - 1].controller;
        forall j | 0 <= j < i - 1 ensures !rest[j].controller {
          assert !owners[j + 1].controller;
        }
      }
    }
  }

  /** A pod that a kubelet reads from a file, or one that has run to its end. */
  predicate IsStaticOrDone(pod: Object)
    requires pod.body.PodBody?
  {
    "kubernetes.io/config.mirror" in pod.annotations || pod.body.phase == Succeeded || pod.body.phase == Failed
  }

  /** A running pod whose loss no option accepts: a DaemonSet's, one nobody would recreate, one with local data. */
  predicate MustRefuse(pod: Object, opts: NodeOptions)
    requires pod.body.PodBody?
  {
    && !IsStaticOrDone(pod)
    && (|| (BelongsToDaemonSet(pod.body.owners) && !opts.ignoreDaemonSets)
        || (HasNoController(pod.body.owners) && !opts.force)
        || (!BelongsToDaemonSet(pod.body.owners) && true in pod.body.emptyDirs && !opts.deleteLocalData))
  }

  /** A mirror pod, or a DaemonSet's pod that has not run to its end and may stay. */
  predicate MayStay(pod: Object, opts: NodeOptions)
    requires pod.body.PodBody?
  {
    || "kubernetes.io/config.mirror" in pod.annotations
    || (!IsStaticOrDone(pod) && BelongsToDaemonSet(pod.body.owners) && opts.ignoreDaemonSets)
  }

  /** A pod that has run to its end, or one whose loss the options accept. */
  predicate MayGo(pod: Object, opts: NodeOptions)
    requires pod.body.PodBody?
  {
    && "kubernetes.io/config.mirror" !in pod.annotations
    && (|| pod.body.phase == Succeeded
        || pod.body.phase == Failed
        || (&& !BelongsToDaemonSet(pod.body.owners)
            && (opts.force || !HasNoController(pod.body.owners))
            && (opts.deleteLocalData || true !in pod.body.emptyDirs)))
  }

  /** Which listed pods of the node are refused, left and evicted, and that others are in no class. */
  lemma PlanSortsByTheirFields(pods: seq<Item>, node: string, opts: NodeOptions, pod: Item)
    requires ArePods(pods) && pod in pods
    ensures pod in Pick(pods, node, opts, Refuse) <==> pod.state.body.nodeName == node && MustRefuse(pod.state, opts)
    ensures pod in Pick(pods, node, opts, Leave) <==> pod.state.body.nodeName == node && MayStay(pod.state, opts)
    ensures pod in Pick(pods, node, opts, EvictIt) <==> pod.state.body.nodeName == node && MayGo(pod.state, opts)
  {
    PickedAreJudged(pods, node, opts, Refuse);
    PickedAreJudged(pods, node, opts, Leave);
    PickedAreJudged(pods, node, opts, EvictIt);
    ControllerIsTheFirst(pod.state.body.owners);
  }
}
