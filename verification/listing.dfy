/** Listing clusters with their status: one machine list grouped by owner instead of a query per cluster
    (pkg/mcp/handlers/cluster.go, pkg/capi/utils.go). */
module Listing {
  import opened Wrappers
  import opened Policy
  import opened Store
  import opened Interleaving
  import opened Footprint
  import opened Capi

  /******* The status of one cluster *******/

  datatype Provider = AWS | Azure | GCP | VSphere | VCD | UnknownProvider

  datatype Status = Status(
    name: string, namespace: string, phase: string, ready: bool, controlPlaneReady: bool, infrastructureReady: bool,
    version: string, provider: Provider, totalMachines: nat, readyMachines: nat, conditions: seq<Condition>,
    paused: bool, labels: Metadata, annotations: Metadata)

  const READY := "Ready"
  const TRUE := "True"

  function DetermineProvider(infrastructureKind: Option<string>): Provider {
    match infrastructureKind
    case None => UnknownProvider
    case Some(kind) =>
      if kind == "AWSCluster" then AWS
      else if kind == "AzureCluster" then Azure
      else if kind == "GCPCluster" then GCP
      else if kind == "VSphereCluster" then VSphere
      else if kind == "VCDCluster" then VCD
      else UnknownProvider
  }

  /** The first condition of the type decides. */
  method IsConditionTrue(conditions: seq<Condition>, conditionType: string) returns (r: bool)
    ensures r <==> exists i | 0 <= i < |conditions| ::
                     && conditions[i] == Condition(conditionType, TRUE)
                     && forall j | 0 <= j < i :: conditions[j].conditionType != conditionType
    ensures r == ConditionTrue(conditions, conditionType)
  {
    var i := 0;
    while i < |conditions|
      invariant i <= |conditions|
      invariant forall j | 0 <= j < i :: conditions[j].conditionType != conditionType
      invariant ConditionTrue(conditions, conditionType) == ConditionTrue(conditions[i..], conditionType)
    {
      if conditions[i].conditionType == conditionType { return conditions[i].status == TRUE; }
      assert conditions[i..][1..] == conditions[i + 1..];
      i := i + 1;
    }
    return false;
  }

  predicate ConditionTrue(conditions: seq<Condition>, conditionType: string) {
    conditions != [] &&
    if conditions[0].conditionType == conditionType then conditions[0].status == TRUE
    else ConditionTrue(conditions[1..], conditionType)
  }

  function ReadyCount(machines: seq<Item>): nat {
    if machines == [] then 0
    else
      var last := machines[|machines| - 1].state;
      ReadyCount(machines[..|machines| - 1]) + if last.body.MachineBody? && last.body.nodeRef.Some? then 1 else 0
  }

  function TopologyVersion(cluster: Object): string
    requires cluster.body.ClusterBody?
  {
    if cluster.body.topology.Some? then cluster.body.topology.value.version else ""
  }

  function StatusOf(key: Key, cluster: Object, version: string, provider: Provider, machines: seq<Item>): Status
    requires cluster.body.ClusterBody?
  {
    Status(key.name, key.namespace, cluster.body.status.phase, ConditionTrue(cluster.body.status.conditions, READY),
           cluster.body.status.controlPlaneReady, cluster.body.status.infrastructureReady, version, provider,
           |machines|, ReadyCount(machines), cluster.body.status.conditions, cluster.body.paused,
           cluster.labels, cluster.annotations)
  }

  datatype VersionReply = VersionReply(sys: Sys, version: string)

  /** The topology's version, or else that of the referenced control plane in the cluster's own namespace. */
  function VersionOf(s: Sys, ctx: Context, key: Key, cluster: Object): VersionReply
    requires cluster.body.ClusterBody?
  {
    var ref := cluster.body.controlPlaneRef;
    if ref.None? || TopologyVersion(cluster) != "" || ref.value.kind != KUBEADM_CONTROL_PLANE then
      VersionReply(s, TopologyVersion(cluster))
    else
      var kcp := Get(s, ctx, Key(KubeadmControlPlane, key.namespace, ref.value.name));
      VersionReply(kcp.sys,
                   if kcp.result.Success? && kcp.result.value.body.ControlPlaneBody?
                   then kcp.result.value.body.kcpVersion else "")
  }

  datatype StatusReply = StatusReply(sys: Sys, result: Result<Status, Error>)

  function MachinesOf(namespace: string, clusterName: string): Query {
    Query(Machine, namespace, clusterName, "")
  }

  lemma GetKeepsKind(s: Sys, ctx: Context, key: Key)
    requires Valid(s.world)
    ensures var got := Get(s, ctx, key); got.result.Success? ==> KindOf(got.result.value.body) == key.kind
  {
    GetFollows(s, ctx, key);
  }

  /** GetClusterStatus: up to four requests; only the first one's failure is reported. */
  function SingleStatus(s: Sys, ctx: Context, namespace: string, name: string): StatusReply
    requires Valid(s.world)
  {
    var key := Key(Cluster, namespace, name);
    var got := Get(s, ctx, key);
    GetKeepsKind(s, ctx, key);
    match got.result
    case Failure(error) => StatusReply(got.sys, Failure(Api(error)))
    case Success(cluster) =>
      var again := Get(got.sys, ctx, key);
      var provider := if again.result.Success? && again.result.value.body.ClusterBody? then
                        DetermineProvider(again.result.value.body.infrastructureKind)
                      else UnknownProvider;
      var listed := List(again.sys, ctx, MachinesOf(namespace, name));
      var machines := if listed.result.Success? then listed.result.value else [];
      var version := VersionOf(listed.sys, ctx, key, cluster);
      StatusReply(version.sys, Success(StatusOf(key, cluster, version.version, provider, machines)))
  }

  /** GetClusterStatusFromList: the cluster and its machines were fetched before. */
  function BulkStatus(s: Sys, ctx: Context, item: Item, machines: seq<Item>): StatusReply
    requires item.state.body.ClusterBody?
  {
    var version := VersionOf(s, ctx, item.key, item.state);
    StatusReply(version.sys,
                Success(StatusOf(item.key, item.state, version.version,
                                 DetermineProvider(item.state.body.infrastructureKind), machines)))
  }

  /******* Grouping *******/

  /** The map key of the code: a string, not a pair. */
  function Joined(namespace: string, name: string): string {
    namespace + "/" + name
  }

  function OwnerOf(machine: Item): string {
    Joined(machine.key.namespace, Read(machine.state.labels, CLUSTER_NAME))
  }

  /** The machines under one key, in list order. */
  function Group(machines: seq<Item>, owner: string): seq<Item> {
    if machines == [] then []
    else
      var earlier := Group(machines[..|machines| - 1], owner);
      var last := machines[|machines| - 1];
      if OwnerOf(last) == owner then earlier + [last] else earlier
  }

  function At<T>(groups: map<string, seq<T>>, key: string): seq<T> {
    if key in groups then groups[key] else []
  }

  /** The loop that fills machinesByCluster. */
  method GroupMachines(machines: seq<Item>) returns (groups: map<string, seq<Item>>)
    ensures forall owner :: At(groups, owner) == Group(machines, owner)
  {
    groups := map[];
    var i := 0;
    while i < |machines|
      invariant i <= |machines|
      invariant forall owner :: At(groups, owner) == Group(machines[..i], owner)
    {
      var owner := OwnerOf(machines[i]);
      assert machines[..i + 1][..i] == machines[..i];
      groups := groups[owner := At(groups, owner) + [machines[i]]];
      i := i + 1;
    }
    assert machines[..i] == machines;
  }

  /******* The handler *******/

  predicate MatchesLabels(labels: Metadata, selector: Metadata) {
    forall k | k in selector :: k in labels && labels[k] == selector[k]
  }

  predicate Contains(text: string, part: string) {
    part <= text || (text != "" && Contains(text[1..], part))
  }

  /** A search term is looked for in the name and the label values, in lower case. */
  predicate MatchesSearch(item: Item, search: string, lower: string -> string) {
    || search == ""
    || Contains(lower(item.key.name), lower(search))
    || exists k | k in item.state.labels :: Contains(lower(item.state.labels[k]), lower(search))
  }

  datatype Filter = Filter(selector: Metadata, search: string, lower: string -> string)

  predicate Passes(item: Item, filter: Filter) {
    MatchesLabels(item.state.labels, filter.selector) && MatchesSearch(item, filter.search, filter.lower)
  }

  function Kept(items: seq<Item>, filter: Filter): seq<Item> {
    if items == [] then []
    else
      var earlier := Kept(items[..|items| - 1], filter);
      if Passes(items[|items| - 1], filter) then earlier + [items[|items| - 1]] else earlier
  }

  predicate AreClusters(items: seq<Item>) {
    forall i | 0 <= i < |items| :: items[i].state.body.ClusterBody? && items[i].key.kind == Cluster
  }

  datatype ListReply = ListReply(sys: Sys, result: Result<seq<Status>, Error>)

  datatype Summaries = Summaries(sys: Sys, items: seq<Status>)

  function Summarize(s: Sys, ctx: Context, clusters: seq<Item>, machines: seq<Item>): Summaries
    requires AreClusters(clusters)
    decreases |clusters|
  {
    if clusters == [] then Summaries(s, [])
    else
      var owner := Joined(clusters[0].key.namespace, clusters[0].key.name);
      var one := BulkStatus(s, ctx, clusters[0], Group(machines, owner));
      var rest := Summarize(one.sys, ctx, clusters[1..], machines);
      Summaries(rest.sys, [one.result.value] + rest.items)
  }

  function ClustersOf(namespace: string): Query {
    Query(Cluster, namespace, "", "")
  }

  function ListStatuses(s: Sys, ctx: Context, namespace: string, filter: Filter): ListReply
    requires Valid(s.world)
  {
    var clusters := List(s, ctx, ClustersOf(namespace));
    match clusters.result
    case Failure(error) => ListReply(clusters.sys, Failure(Api(error)))
    case Success(items) =>
      var machines := List(clusters.sys, ctx, MachinesOf(namespace, ""));
      match machines.result
      case Failure(error) => ListReply(machines.sys, Failure(Api(error)))
      case Success(all) =>
        KeptAreClusters(s, ctx, namespace, filter);
        var out := Summarize(machines.sys, ctx, Kept(items, filter), all);
        ListReply(out.sys, Success(out.items))
  }

  lemma {:induction false} KeptIsWithin(items: seq<Item>, filter: Filter)
    ensures forall i | 0 <= i < |Kept(items, filter)| :: Kept(items, filter)[i] in items
  {
    hide Passes;
    if items != [] { KeptIsWithin(items[..|items| - 1], filter); }
  }

  lemma KeptAreClusters(s: Sys, ctx: Context, namespace: string, filter: Filter)
    requires Valid(s.world)
    ensures var listed := List(s, ctx, ClustersOf(namespace));
            listed.result.Success? ==> AreClusters(Kept(listed.result.value, filter))
  {
    hide Later, Recorded, Passes;
    ListFollows(s, ctx, ClustersOf(namespace));
    var w := Arrive(s).world;
    ItemsAreStored(w.objects, w.index, ClustersOf(namespace));
    var items := Items(w.objects, w.index, ClustersOf(namespace));
    KeptIsWithin(items, filter);
    forall i | 0 <= i < |Kept(items, filter)|
      ensures Kept(items, filter)[i].state.body.ClusterBody? && Kept(items, filter)[i].key.kind == Cluster
    {
      assert IsListed(w.objects, w.index, ClustersOf(namespace), Kept(items, filter)[i]);
    }
  }

  /******* Reads *******/

  /** From s to t only time and others moved: this client wrote nothing. */
  ghost predicate OnlyReads(s: Sys, t: Sys) {
    Follows(s, t) && Extends(s, t) && Made(s, t) == []
  }

  lemma ReadsNothing(s: Sys)
    ensures OnlyReads(s, s)
  {
    FollowsReflexive(s);
    MadeNothing(s, s);
  }

  lemma ReadsOnce(s: Sys)
    ensures OnlyReads(s, Arrive(s))
  {
    ArriveFollows(s);
    ArriveMade(s);
  }

  lemma ReadsMore(s: Sys, t: Sys, u: Sys)
    requires OnlyReads(s, t) && OnlyReads(t, u)
    ensures OnlyReads(s, u)
  {
    FollowsTransitive(s, t, u);
    MadeAppend(s, t, u);
  }

  lemma VersionOnlyReads(s: Sys, ctx: Context, key: Key, cluster: Object)
    requires cluster.body.ClusterBody?
    ensures OnlyReads(s, VersionOf(s, ctx, key, cluster).sys)
  {
    hide OnlyReads, Arrive;
    ReadsNothing(s);
    ReadsOnce(s);
  }

  /** The per-cluster status query causes no event. */
  lemma SingleStatusOnlyReads(s: Sys, ctx: Context, namespace: string, name: string)
    requires Valid(s.world)
    ensures OnlyReads(s, SingleStatus(s, ctx, namespace, name).sys)
  {
    hide OnlyReads, VersionOf, Arrive, Valid, Items, StatusOf;
    var key := Key(Cluster, namespace, name);
    var got := Get(s, ctx, key);
    GetKeepsKind(s, ctx, key);
    ReadsOnce(s);
    if got.result.Success? {
      var again := Get(got.sys, ctx, key);
      ReadsOnce(got.sys);
      ReadsMore(s, got.sys, again.sys);
      var listed := List(again.sys, ctx, MachinesOf(namespace, name));
      ReadsOnce(again.sys);
      ReadsMore(s, again.sys, listed.sys);
      VersionOnlyReads(listed.sys, ctx, key, got.result.value);
      ReadsMore(s, listed.sys, VersionOf(listed.sys, ctx, key, got.result.value).sys);
    }
  }

  lemma {:induction false} SummarizeOnlyReads(s: Sys, ctx: Context, clusters: seq<Item>, machines: seq<Item>)
    requires AreClusters(clusters)
    ensures OnlyReads(s, Summarize(s, ctx, clusters, machines).sys)
    decreases |clusters|
  {
    hide OnlyReads, VersionOf, StatusOf, Group;
    if clusters == [] {
      ReadsNothing(s);
    } else {
      var owner := Joined(clusters[0].key.namespace, clusters[0].key.name);
      var one := BulkStatus(s, ctx, clusters[0], Group(machines, owner));
      VersionOnlyReads(s, ctx, clusters[0].key, clusters[0].state);
      SummarizeOnlyReads(one.sys, ctx, clusters[1..], machines);
      ReadsMore(s, one.sys, Summarize(s, ctx, clusters, machines).sys);
    }
  }

  /** Nor does the bulk listing. */
  lemma ListStatusesOnlyReads(s: Sys, ctx: Context, namespace: string, filter: Filter)
    requires Valid(s.world)
    ensures OnlyReads(s, ListStatuses(s, ctx, namespace, filter).sys)
  {
    hide OnlyReads, Arrive, Valid, Items, Kept, Summarize;
    var clusters := List(s, ctx, ClustersOf(namespace));
    ReadsOnce(s);
    if clusters.result.Success? {
      var machines := List(clusters.sys, ctx, MachinesOf(namespace, ""));
      ReadsOnce(clusters.sys);
      ReadsMore(s, clusters.sys, machines.sys);
      if machines.result.Success? {
        KeptAreClusters(s, ctx, namespace, filter);
        var kept := Kept(clusters.result.value, filter);
        SummarizeOnlyReads(machines.sys, ctx, kept, machines.result.value);
        ReadsMore(s, machines.sys, Summarize(machines.sys, ctx, kept, machines.result.value).sys);
      }
    }
  }

  /******* The methods *******/

  method CountReady(machines: seq<Item>) returns (ready: nat)
    ensures ready == ReadyCount(machines)
  {
    ready := 0;
    var i := 0;
    while i < |machines|
      invariant i <= |machines| && ready == ReadyCount(machines[..i])
    {
      assert machines[..i + 1][..i] == machines[..i];
      var body := machines[i].state.body;
      if body.MachineBody? && body.nodeRef.Some? { ready := ready + 1; }
      i := i + 1;
    }
    assert machines[..i] == machines;
  }

  /** The last step of both status methods. */
  method ControlPlaneVersion(c: Client, ctx: Context, key: Key, cluster: Object) returns (version: string)
    requires c.Ready() && cluster.body.ClusterBody?
    modifies c
    ensures c.Ready()
    ensures VersionReply(c.sys, version) == VersionOf(old(c.sys), ctx, key, cluster)
  {
    hide Valid;
    version := "";
    if cluster.body.topology.Some? && cluster.body.topology.value.version != "" {
      version := cluster.body.topology.value.version;
    }
    if cluster.body.controlPlaneRef.Some? && version == "" {
      if cluster.body.controlPlaneRef.value.kind == KUBEADM_CONTROL_PLANE {
        var kcp := c.Fetch(ctx, Key(KubeadmControlPlane, key.namespace, cluster.body.controlPlaneRef.value.name));
        if kcp.Success? && kcp.value.body.kcpVersion != "" { version := kcp.value.body.kcpVersion; }
      }
    }
  }

  method GetClusterStatus(c: Client, ctx: Context, namespace: string, name: string) returns (r: Result<Status, Error>)
    requires c.Ready()
    modifies c
    ensures c.Ready()
    ensures StatusReply(c.sys, r) == SingleStatus(old(c.sys), ctx, namespace, name)
  {
    hide Valid, VersionOf;
    var key := Key(Cluster, namespace, name);
    var got := c.Fetch(ctx, key);
    if got.Failure? { return Failure(Api(got.error)); }
    var cluster := got.value;
    var ready := IsConditionTrue(cluster.body.status.conditions, READY);
    var again := c.Fetch(ctx, key);
    var provider := UnknownProvider;
    if again.Success? { provider := DetermineProvider(again.value.body.infrastructureKind); }
    ListKeepsValid(c.sys, ctx, MachinesOf(namespace, name));
    var listed := List(c.sys, ctx, MachinesOf(namespace, name));
    c.sys := listed.sys;
    var total, readyMachines := 0, 0;
    if listed.result.Success? {
      total := |listed.result.value|;
      readyMachines := CountReady(listed.result.value);
    }
    var version := ControlPlaneVersion(c, ctx, key, cluster);
    var status := cluster.body.status;
    return Success(Status(name, namespace, status.phase, ready, status.controlPlaneReady, status.infrastructureReady,
                          version, provider, total, readyMachines, status.conditions, cluster.body.paused,
                          cluster.labels, cluster.annotations));
  }

  method GetClusterStatusFromList(c: Client, ctx: Context, item: Item, machines: seq<Item>) returns (status: Status)
    requires c.Ready() && item.state.body.ClusterBody?
    modifies c
    ensures c.Ready()
    ensures StatusReply(c.sys, Success(status)) == BulkStatus(old(c.sys), ctx, item, machines)
  {
    hide Valid, VersionOf;
    var cluster := item.state;
    var ready := IsConditionTrue(cluster.body.status.conditions, READY);
    var readyMachines := CountReady(machines);
    var version := ControlPlaneVersion(c, ctx, item.key, cluster);
    return Status(item.key.name, item.key.namespace, cluster.body.status.phase, ready,
                  cluster.body.status.controlPlaneReady, cluster.body.status.infrastructureReady, version,
                  DetermineProvider(cluster.body.infrastructureKind), |machines|, readyMachines,
                  cluster.body.status.conditions, cluster.body.paused, cluster.labels, cluster.annotations);
  }

  /** The loop over the label values, in whatever order. */
  method SearchCluster(item: Item, search: string, lower: string -> string) returns (matched: bool)
    ensures matched == MatchesSearch(item, search, lower)
  {
    if search == "" || Contains(lower(item.key.name), lower(search)) { return true; }
    var todo := item.state.labels.Keys;
    while todo != {}
      invariant todo <= item.state.labels.Keys
      invariant forall k | k in item.state.labels && k !in todo :: !Contains(lower(item.state.labels[k]), lower(search))
      decreases todo
    {
      var k :| k in todo;
      if Contains(lower(item.state.labels[k]), lower(search)) { return true; }
      todo := todo - {k};
    }
    return false;
  }

  /** The server matches the selector, the loop the search term. */
  method FilterClusters(items: seq<Item>, filter: Filter) returns (clusters: seq<Item>)
    ensures clusters == Kept(items, filter)
  {
    clusters := [];
    var i := 0;
    while i < |items|
      invariant i <= |items| && clusters == Kept(items[..i], filter)
    {
      assert items[..i + 1][..i] == items[..i];
      if MatchesLabels(items[i].state.labels, filter.selector) {
        var matched := SearchCluster(items[i], filter.search, filter.lower);
        if matched { clusters := clusters + [items[i]]; }
      }
      i := i + 1;
    }
    assert items[..i] == items;
  }

  /** CreateListClustersHandler. */
  method ListClusters(c: Client, ctx: Context, namespace: string, filter: Filter)
    returns (r: Result<seq<Status>, Error>)
    requires c.Ready()
    modifies c
    ensures c.Ready()
    ensures ListReply(c.sys, r) == ListStatuses(old(c.sys), ctx, namespace, filter)
  {
    hide Valid, BulkStatus;
    KeptAreClusters(c.sys, ctx, namespace, filter);
    ListKeepsValid(c.sys, ctx, ClustersOf(namespace));
    var listed := List(c.sys, ctx, ClustersOf(namespace));
    c.sys := listed.sys;
    if listed.result.Failure? { return Failure(Api(listed.result.error)); }
    var clusters := FilterClusters(listed.result.value, filter);
    ListKeepsValid(c.sys, ctx, MachinesOf(namespace, ""));
    var machines := List(c.sys, ctx, MachinesOf(namespace, ""));
    c.sys := machines.sys;
    if machines.result.Failure? { return Failure(Api(machines.result.error)); }
    var groups := GroupMachines(machines.result.value);
    var items := SummarizeAll(c, ctx, clusters, groups, machines.result.value);
    return Success(items);
  }

  /** The loop over the clusters. */
  method SummarizeAll(
    c: Client, ctx: Context, clusters: seq<Item>, groups: map<string, seq<Item>>, ghost machines: seq<Item>)
    returns (items: seq<Status>)
    requires c.Ready() && AreClusters(clusters)
    requires forall owner :: At(groups, owner) == Group(machines, owner)
    modifies c
    ensures c.Ready()
    ensures Summaries(c.sys, items) == Summarize(old(c.sys), ctx, clusters, machines)
  {
    hide Valid, BulkStatus;
    items := [];
    var j := 0;
    while j < |clusters|
      invariant c.Ready() && j <= |clusters|
      invariant var rest := Summarize(c.sys, ctx, clusters[j..], machines);
                Summaries(rest.sys, items + rest.items) == Summarize(old(c.sys), ctx, clusters, machines)
    {
      assert clusters[j..][0] == clusters[j] && clusters[j..][1..] == clusters[j + 1..];
      ghost var before := Summarize(c.sys, ctx, clusters[j..], machines);
      var status := GetClusterStatusFromList(
        c, ctx, clusters[j], At(groups, Joined(clusters[j].key.namespace, clusters[j].key.name)));
      ghost var after := Summarize(c.sys, ctx, clusters[j + 1..], machines);
      assert items + before.items == items + [status] + after.items;
      items := items + [status];
      j := j + 1;
    }
    assert items + [] == items;
  }
}
