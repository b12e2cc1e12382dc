/** What the client's methods do to a fetched object before they write it back
    (pkg/capi/client.go, pkg/capi/providers.go). */
module Changes {
  import opened Wrappers
  import opened Policy
  import opened Store

  /******* Label and annotation patches *******/

  /** A patch sets its keys; an empty value removes the key. */
  function Overlay(m: Metadata, patch: Metadata): Metadata {
    map k | k in m.Keys + patch.Keys && !(k in patch && patch[k] == "") :: if k in patch then patch[k] else m[k]
  }

  function OverlayOption(m: Metadata, patch: Option<Metadata>): Metadata {
    if patch.Some? then Overlay(m, patch.value) else m
  }

  lemma OverlayStep(m: Metadata, applied: Metadata, k: string, value: string)
    ensures Overlay(m, applied[k := value]) ==
            if value == "" then Overlay(m, applied) - {k} else Overlay(m, applied)[k := value]
  {
  }

  lemma OverlayNothing(m: Metadata)
    ensures Overlay(m, map[]) == m
  {
  }

  /** The loop over a patch. Go leaves the order of a map's keys open, and so does this method. */
  method ApplyPatch(m: Metadata, patch: Metadata) returns (r: Metadata)
    ensures r == Overlay(m, patch)
  {
    hide Overlay;
    OverlayNothing(m);
    r := m;
    var todo := patch.Keys;
    ghost var applied: Metadata := map[];
    while todo != {}
      invariant todo <= patch.Keys
      invariant applied == map k | k in patch && k !in todo :: patch[k]
      invariant r == Overlay(m, applied)
      decreases todo
    {
      var k :| k in todo;
      OverlayStep(m, applied, k, patch[k]);
      if patch[k] == "" {
        r := r - {k};
      } else {
        r := r[k := patch[k]];
      }
      applied := applied[k := patch[k]];
      todo := todo - {k};
    }
    assert applied == patch;
  }

  /** Two patches in a row are the one patch in which the later one wins. */
  lemma OverlayComposes(m: Metadata, first: Metadata, second: Metadata)
    ensures Overlay(Overlay(m, first), second) == Overlay(m, first + second)
  {
  }

  lemma OverlayOptionIdempotent(m: Metadata, patch: Option<Metadata>)
    ensures OverlayOption(OverlayOption(m, patch), patch) == OverlayOption(m, patch)
  {
  }

  /******* Changes to one object *******/

  const PAUSED := "cluster.x-k8s.io/paused"
  const REMEDIATE := "cluster.x-k8s.io/remediate-machine"
  const ROLLOUT_REASON := "mcp-capi.giantswarm.io/rollout-reason"
  const SECOND: nat := 1_000_000_000

  datatype Change =
    | Pause
    | Resume
    | Relabel(clusterLabels: Option<Metadata>, clusterAnnotations: Option<Metadata>)
    | SetTopology(topology: Topology)
    | Remediate
    | ScaleControlPlane(kcpReplicas: int)
    | SetControlPlaneVersion(kcpVersion: string)
    | ScaleDeployment(replicas: int)
    | SetDeploymentVersion(version: string)
    | Configure(newVersion: Option<string>, newReplicas: Option<int>, minReadySeconds: Option<int>,
                nodeDrainTimeout: Option<int>, labels: Option<Metadata>, annotations: Option<Metadata>)
    | Rollout(reason: string)
    | SetUnschedulable(unschedulable: bool)

  function Target(change: Change): Kind {
    match change
    case Pause => Cluster
    case Resume => Cluster
    case Relabel(_, _) => Cluster
    case SetTopology(_) => Cluster
    case Remediate => Machine
    case ScaleControlPlane(_) => KubeadmControlPlane
    case SetControlPlaneVersion(_) => KubeadmControlPlane
    case ScaleDeployment(_) => MachineDeployment
    case SetDeploymentVersion(_) => MachineDeployment
    case Configure(_, _, _, _, _, _) => MachineDeployment
    case Rollout(_) => MachineDeployment
    case SetUnschedulable(_) => Node
  }

  function Decimal(n: nat): string {
    var digit := ['0' + (n % 10) as char];
    if n < 10 then digit else Decimal(n / 10) + digit
  }

  function Or<T>(given: Option<T>, stored: Option<T>): Option<T> {
    if given.Some? then given else stored
  }

  function Apply(change: Change, o: Object, now: nat): (r: Object)
    requires KindOf(o.body) == Target(change)
    ensures KindOf(r.body) == KindOf(o.body) && r.uid == o.uid && r.rv == o.rv
  {
    match change
    case Pause => o.(annotations := o.annotations[PAUSED := "true"])
    case Resume => o.(annotations := o.annotations - {PAUSED})
    case Relabel(labels, annotations) =>
      o.(labels := OverlayOption(o.labels, labels), annotations := OverlayOption(o.annotations, annotations))
    case SetTopology(topology) => o.(body := o.body.(topology := Some(topology)))
    case Remediate => o.(annotations := o.annotations[REMEDIATE := Decimal(now / SECOND)])
    case ScaleControlPlane(replicas) => o.(body := o.body.(kcpReplicas := Some(replicas)))
    case SetControlPlaneVersion(version) => o.(body := o.body.(kcpVersion := version))
    case ScaleDeployment(replicas) => o.(body := o.body.(replicas := Some(replicas)))
    case SetDeploymentVersion(version) => o.(body := o.body.(version := Some(version)))
    case Configure(version, replicas, minReady, drainTimeout, labels, annotations) =>
      o.(body := o.body.(version := Or(version, o.body.version),
                         replicas := Or(replicas, o.body.replicas),
                         minReadySeconds := Or(minReady, o.body.minReadySeconds),
                         nodeDrainTimeout := Or(drainTimeout, o.body.nodeDrainTimeout)),
         labels := OverlayOption(o.labels, labels),
         annotations := OverlayOption(o.annotations, annotations))
    case Rollout(reason) =>
      o.(body := o.body.(rolloutAfter := Some(now / SECOND)),
         annotations := if reason == "" then o.annotations else o.annotations[ROLLOUT_REASON := reason])
    case SetUnschedulable(unschedulable) => o.(body := o.body.(unschedulable := unschedulable))
  }

  /** The number that decimal digits write. */
  function ValueOf(digits: string): int {
    if digits == "" then 0 else ValueOf(digits[..|digits| - 1]) * 10 + (digits[|digits| - 1] as int - '0' as int)
  }

  lemma {:induction false} DecimalIsWritten(n: nat)
    ensures ValueOf(Decimal(n)) == n
    ensures forall i | 0 <= i < |Decimal(n)| :: '0' <= Decimal(n)[i] <= '9'
    ensures n > 0 ==> Decimal(n)[0] != '0'
  {
    var digit := ['0' + (n % 10) as char];
    if n < 10 {
      assert digit[..0] == "";
    } else {
      DecimalIsWritten(n / 10);
      assert Decimal(n)[..|Decimal(n)| - 1] == Decimal(n / 10);
    }
  }

  /** Different numbers are written differently. */
  lemma DecimalIsInjective(a: nat, b: nat)
    requires Decimal(a) == Decimal(b)
    ensures a == b
  {
    DecimalIsWritten(a);
    DecimalIsWritten(b);
  }

  /** Resuming undoes pausing, unless the cluster was paused before. */
  lemma ResumeUndoesPauseIff(o: Object, now: nat, later: nat)
    requires o.body.ClusterBody?
    ensures Apply(Resume, Apply(Pause, o, now), later) == o <==> PAUSED !in o.annotations
  {
    var undone := Apply(Resume, Apply(Pause, o, now), later);
    assert undone.annotations == o.annotations - {PAUSED};
    assert PAUSED !in o.annotations ==> o.annotations - {PAUSED} == o.annotations;
  }

  /** Uncordoning undoes cordoning, unless the node was unschedulable before. */
  lemma UncordonUndoesCordonIff(o: Object, now: nat, later: nat)
    requires o.body.NodeBody?
    ensures Apply(SetUnschedulable(false), Apply(SetUnschedulable(true), o, now), later) == o <==> !o.body.unschedulable
  {
  }

  /** What was asked for, or else what was stored. */
  predicate IsAskedOr<T(==)>(after: Option<T>, asked: Option<T>, before: Option<T>) {
    (asked.Some? ==> after == asked) && (asked.None? ==> after == before)
  }

  /** A patched map: each key of the patch is set to its value, or gone if that is empty, and every other key is as
      it was. */
  ghost predicate IsPatched(before: Metadata, patch: Option<Metadata>, after: Metadata) {
    forall k: string ::
      if patch.Some? && k in patch.value then
        if patch.value[k] == "" then k !in after else k in after && after[k] == patch.value[k]
      else
        (k in after <==> k in before) && (k in after ==> after[k] == before[k])
  }

  lemma OverlayPatches(m: Metadata, patch: Option<Metadata>)
    ensures IsPatched(m, patch, OverlayOption(m, patch))
  {
  }

  /** An update sets exactly the fields that are asked for, and each label and annotation of its patches. */
  lemma ConfigureSetsWhatIsAsked(change: Change, o: Object, now: nat)
    requires o.body.DeploymentBody? && change.Configure?
    ensures var after := Apply(change, o, now);
            && after.uid == o.uid
            && IsAskedOr(after.body.version, change.newVersion, o.body.version)
            && IsAskedOr(after.body.replicas, change.newReplicas, o.body.replicas)
            && IsAskedOr(after.body.minReadySeconds, change.minReadySeconds, o.body.minReadySeconds)
            && IsAskedOr(after.body.nodeDrainTimeout, change.nodeDrainTimeout, o.body.nodeDrainTimeout)
            && after.body.rolloutAfter == o.body.rolloutAfter
            && after.body.template == o.body.template
            && IsPatched(o.labels, change.labels, after.labels)
            && IsPatched(o.annotations, change.annotations, after.annotations)
  {
    hide IsPatched, OverlayOption;
    OverlayPatches(o.labels, change.labels);
    OverlayPatches(o.annotations, change.annotations);
  }

  lemma RelabelPatches(labels: Option<Metadata>, annotations: Option<Metadata>, o: Object, now: nat)
    requires o.body.ClusterBody?
    ensures var after := Apply(Relabel(labels, annotations), o, now);
            && after == o.(labels := after.labels, annotations := after.annotations)
            && IsPatched(o.labels, labels, after.labels)
            && IsPatched(o.annotations, annotations, after.annotations)
  {
    hide IsPatched, OverlayOption;
    OverlayPatches(o.labels, labels);
    OverlayPatches(o.annotations, annotations);
  }

  /** after is before with the annotation set to the value, or removed, and no other change but to the body. */
  ghost predicate SetsAnnotation(before: Object, after: Object, name: string, value: Option<string>) {
    && after == before.(annotations := after.annotations, body := after.body)
    && (name in after.annotations <==> value.Some?)
    && (value.Some? ==> after.annotations[name] == value.value)
    && forall k: string | k != name ::
         && (k in after.annotations <==> k in before.annotations)
         && (k in after.annotations ==> after.annotations[k] == before.annotations[k])
  }

  /** A paused Cluster carries the annotation with the value true, a resumed one does not. */
  lemma PauseIsMarked(o: Object, now: nat)
    requires o.body.ClusterBody?
    ensures SetsAnnotation(o, Apply(Pause, o, now), "cluster.x-k8s.io/paused", Some("true"))
    ensures SetsAnnotation(o, Apply(Resume, o, now), "cluster.x-k8s.io/paused", None)
    ensures Apply(Pause, o, now).body == Apply(Resume, o, now).body == o.body
  {
  }

  /** A Machine to remediate carries the second of the call. */
  lemma RemediationIsMarked(o: Object, now: nat)
    requires o.body.MachineBody?
    ensures var after := Apply(Remediate, o, now);
            && after.body == o.body
            && SetsAnnotation(o, after, "cluster.x-k8s.io/remediate-machine", Some(Decimal(now / 1_000_000_000)))
  {
    hide Decimal;
  }

  /** A rollout is due at the second of the call and keeps its reason, if one is given. */
  lemma RolloutIsMarked(o: Object, now: nat, reason: string)
    requires o.body.DeploymentBody?
    ensures var after := Apply(Rollout(reason), o, now);
            && after.body == o.body.(rolloutAfter := Some(now / 1_000_000_000))
            && (reason == "" ==> after == o.(body := after.body))
            && (reason != "" ==> SetsAnnotation(o, after, "mcp-capi.giantswarm.io/rollout-reason", Some(reason)))
  {
  }

  /** Each of the other changes sets one field of the body. */
  lemma FieldIsSet(change: Change, o: Object, now: nat)
    requires KindOf(o.body) == Target(change)
    requires change.SetTopology? || change.ScaleControlPlane? || change.SetControlPlaneVersion?
          || change.ScaleDeployment? || change.SetDeploymentVersion? || change.SetUnschedulable?
    ensures var after := Apply(change, o, now);
            && after == o.(body := after.body)
            && match (change, o.body)
               case (SetTopology(topology), ClusterBody(_, plane, infrastructure, paused, network, status)) =>
                 after.body == ClusterBody(Some(topology), plane, infrastructure, paused, network, status)
               case (ScaleControlPlane(replicas), ControlPlaneBody(version, _)) =>
                 after.body == ControlPlaneBody(version, Some(replicas))
               case (SetControlPlaneVersion(version), ControlPlaneBody(_, replicas)) =>
                 after.body == ControlPlaneBody(version, replicas)
               case (ScaleDeployment(replicas),
                     DeploymentBody(version, _, minReady, drainTimeout, rollout, template)) =>
                 after.body == DeploymentBody(version, Some(replicas), minReady, drainTimeout, rollout, template)
               case (SetDeploymentVersion(version),
                     DeploymentBody(_, replicas, minReady, drainTimeout, rollout, template)) =>
                 after.body == DeploymentBody(Some(version), replicas, minReady, drainTimeout, rollout, template)
               case (SetUnschedulable(unschedulable), NodeBody(_)) => after.body == NodeBody(unschedulable)
               case _ => false
  {
  }
}
