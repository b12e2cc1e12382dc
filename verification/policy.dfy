/** The write policy: who owns an object, and which calls the policy lets through
    (pkg/capi/policy.go). */
module Policy {
  import opened Wrappers

  type Metadata = map<string, string>

  const FLUX_KUSTOMIZATION_NAME := "kustomize.toolkit.fluxcd.io/name"
  const FLUX_KUSTOMIZATION_NAMESPACE := "kustomize.toolkit.fluxcd.io/namespace"
  const FLUX_HELM_RELEASE_NAME := "helm.toolkit.fluxcd.io/name"
  const FLUX_HELM_RELEASE_NAMESPACE := "helm.toolkit.fluxcd.io/namespace"
  const ARGO_INSTANCE := "argocd.argoproj.io/instance"
  const ARGO_TRACKING := "argocd.argoproj.io/tracking-id"
  const HELM_RELEASE_NAME := "meta.helm.sh/release-name"
  const HELM_RELEASE_NAMESPACE := "meta.helm.sh/release-namespace"
  const MANAGED_BY := "app.kubernetes.io/managed-by"
  const MANAGED_BY_HELM := "Helm"
  const PREVENT_DELETION := "giantswarm.io/prevent-deletion"

  /** The label or annotation that identified an owner. */
  datatype Marker = Label(name: string) | Annotation(name: string)

  datatype Owner = Owner(kind: string, name: string, marker: Marker)

  datatype WritePolicy = WritePolicy(readOnly: bool, gitOpsGuard: bool, exposeKubeconfig: bool)

  datatype Refusal = ReadOnly | ManagedResource | DeletionPrevented | CredentialExport

  /** Go's map read: a missing key reads as the empty string. */
  function Read(m: Metadata, name: string): string {
    if name in m then m[name] else ""
  }

  function Qualified(namespace: string, name: string): string {
    if namespace == "" then name else namespace + "/" + name
  }

  function ManagedBy(labels: Metadata, annotations: Metadata): Option<Owner> {
    if Read(labels, FLUX_KUSTOMIZATION_NAME) != "" then
      Some(Owner("Flux Kustomization",
                 Qualified(Read(labels, FLUX_KUSTOMIZATION_NAMESPACE), Read(labels, FLUX_KUSTOMIZATION_NAME)),
                 Label(FLUX_KUSTOMIZATION_NAME)))
    else if Read(labels, FLUX_HELM_RELEASE_NAME) != "" then
      Some(Owner("Flux HelmRelease",
                 Qualified(Read(labels, FLUX_HELM_RELEASE_NAMESPACE), Read(labels, FLUX_HELM_RELEASE_NAME)),
                 Label(FLUX_HELM_RELEASE_NAME)))
    else if Read(labels, ARGO_INSTANCE) != "" then
      Some(Owner("Argo CD Application", Read(labels, ARGO_INSTANCE), Label(ARGO_INSTANCE)))
    else if Read(annotations, ARGO_TRACKING) != "" then
      Some(Owner("Argo CD Application", Read(annotations, ARGO_TRACKING), Annotation(ARGO_TRACKING)))
    else if Read(annotations, HELM_RELEASE_NAME) != "" then
      Some(Owner("Helm release",
                 Qualified(Read(annotations, HELM_RELEASE_NAMESPACE), Read(annotations, HELM_RELEASE_NAME)),
                 Annotation(HELM_RELEASE_NAME)))
    else if Read(labels, MANAGED_BY) == MANAGED_BY_HELM then
      Some(Owner("Helm release", "", Label(MANAGED_BY)))
    else
      None
  }

  /** The markers, most specific first, each with the owner kind it stands for. */
  const MARKERS: seq<(Marker, string)> := [
    (Label(FLUX_KUSTOMIZATION_NAME), "Flux Kustomization"),
    (Label(FLUX_HELM_RELEASE_NAME), "Flux HelmRelease"),
    (Label(ARGO_INSTANCE), "Argo CD Application"),
    (Annotation(ARGO_TRACKING), "Argo CD Application"),
    (Annotation(HELM_RELEASE_NAME), "Helm release"),
    (Label(MANAGED_BY), "Helm release")
  ]

  /** Whether one marker is set: app.kubernetes.io/managed-by counts only with the value Helm. */
  predicate Carries(labels: Metadata, annotations: Metadata, marker: Marker) {
    match marker
    case Label(name) =>
      if name == MANAGED_BY then Read(labels, name) == MANAGED_BY_HELM else Read(labels, name) != ""
    case Annotation(name) => Read(annotations, name) != ""
  }

  predicate CarriesAt(labels: Metadata, annotations: Metadata, i: nat)
    requires i < |MARKERS|
  {
    Carries(labels, annotations, MARKERS[i].0)
  }

  /** ManagedBy names the first marker of the table that is set, and no owner exactly when none is. */
  lemma ManagedByFirstMarker(labels: Metadata, annotations: Metadata) returns (first: nat)
    ensures first <= |MARKERS|
    ensures forall j | 0 <= j < first :: !CarriesAt(labels, annotations, j)
    ensures match ManagedBy(labels, annotations)
            case None => first == |MARKERS|
            case Some(owner) =>
              && first < |MARKERS|
              && MARKERS[first] == (owner.marker, owner.kind)
              && CarriesAt(labels, annotations, first)
  {
    first := 0;
    while first < |MARKERS| && !CarriesAt(labels, annotations, first)
      invariant first <= |MARKERS|
      invariant forall j | 0 <= j < first :: !CarriesAt(labels, annotations, j)
    {
      first := first + 1;
    }
    assert |FLUX_HELM_RELEASE_NAME| == 27 && |MANAGED_BY| == 28;
    assert FLUX_KUSTOMIZATION_NAME[0] == 'k' && ARGO_INSTANCE[1] == 'r' && MANAGED_BY[1] == 'p';
    assert first > 0 ==> !CarriesAt(labels, annotations, 0);
    assert first > 1 ==> !CarriesAt(labels, annotations, 1);
    assert first > 2 ==> !CarriesAt(labels, annotations, 2);
    assert first > 3 ==> !CarriesAt(labels, annotations, 3);
    assert first > 4 ==> !CarriesAt(labels, annotations, 4);
    assert first > 5 ==> !CarriesAt(labels, annotations, 5);
  }

  predicate Managed(labels: Metadata, annotations: Metadata) {
    ManagedBy(labels, annotations).Some?
  }

  function CheckCredentialExport(p: WritePolicy): Option<Refusal> {
    if p.exposeKubeconfig then None else Some(CredentialExport)
  }

  function CheckCreate(p: WritePolicy): Option<Refusal> {
    if p.readOnly then Some(ReadOnly) else None
  }

  function CheckUpdate(p: WritePolicy, labels: Metadata, annotations: Metadata): Option<Refusal> {
    if p.readOnly then Some(ReadOnly)
    else if !p.gitOpsGuard then None
    else if ManagedBy(labels, annotations).None? then None
    else Some(ManagedResource)
  }

  function CheckDelete(p: WritePolicy, labels: Metadata, annotations: Metadata): Option<Refusal> {
    var refused := CheckUpdate(p, labels, annotations);
    if refused.Some? then refused
    else if PREVENT_DELETION in labels then Some(DeletionPrevented)
    else None
  }
}
