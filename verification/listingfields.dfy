/** What a cluster's status shows, and which clusters a listing shows, by the stored objects' own fields
    (pkg/capi/utils.go, pkg/mcp/handlers/cluster.go). */
module ListingFields {
  import opened Wrappers
  import opened Store
  import opened Interleaving
  import opened Capi
  import opened Listing
  import opened ListingSafety

  /******* One status *******/

  /** The first condition of type Ready has the status True. */
  ghost predicate IsReady(conditions: seq<Condition>) {
    exists i | 0 <= i < |conditions| ::
      && conditions[i] == Condition("Ready", "True")
      && forall j | 0 <= j < i :: conditions[j].conditionType != "Ready"
  }

  lemma {:induction false} ReadyIsReady(conditions: seq<Condition>)
    ensures ConditionTrue(conditions, READY) <==> IsReady(conditions)
  {
    if conditions != [] {
      if conditions[0].conditionType != "Ready" {
        ReadyIsReady(conditions[1..]);
        OthersDoNotDecide(conditions);
      } else if conditions[0].status == "True" {
        assert conditions[0] == Condition("Ready", "True");
      }
    }
  }

  lemma OthersDoNotDecide(conditions: seq<Condition>)
    requires conditions != [] && conditions[0].conditionType != "Ready"
    ensures IsReady(conditions) <==> IsReady(conditions[1..])
  {
    var rest := conditions[1..];
    assert forall i | 0 <= i < |rest| :: rest[i] == conditions[i + 1];
    if i :| && 0 <= i < |rest| && rest[i] == Condition("Ready", "True")
            && forall j | 0 <= j < i :: rest[j].conditionType != "Ready" {
      assert forall j | 0 <= j < i + 1 :: conditions[j].conditionType != "Ready";
      assert conditions[i + 1] == Condition("Ready", "True");
    }
    if i :| && 0 <= i < |conditions| && conditions[i] == Condition("Ready", "True")
            && forall j | 0 <= j < i :: conditions[j].conditionType != "Ready" {
      assert rest[i - 1] == conditions[i];
      assert forall j | 0 <= j < i - 1 :: rest[j].conditionType != "Ready";
    }
  }

  predicate IsProviderOf(infrastructureKind: Option<string>, provider: Provider) {
    match provider
    case AWS => infrastructureKind == Some("AWSCluster")
    case Azure => infrastructureKind == Some("AzureCluster")
    case GCP => infrastructureKind == Some("GCPCluster")
    case VSphere => infrastructureKind == Some("VSphereCluster")
    case VCD => infrastructureKind == Some("VCDCluster")
    case UnknownProvider =>
      infrastructureKind.Some? ==>
        infrastructureKind.value !in {"AWSCluster", "AzureCluster", "GCPCluster", "VSphereCluster", "VCDCluster"}
  }

  lemma ProviderIsDetermined(infrastructureKind: Option<string>)
    ensures IsProviderOf(infrastructureKind, DetermineProvider(infrastructureKind))
  {
  }

  /** The fields copied from the fetched cluster. */
  ghost predicate ShowsCluster(status: Status, key: Key, cluster: Object) {
    && cluster.body.ClusterBody?
    && status.namespace == key.namespace
    && status.name == key.name
    && status.phase == cluster.body.status.phase
    && status.controlPlaneReady == cluster.body.status.controlPlaneReady
    && status.infrastructureReady == cluster.body.status.infrastructureReady
    && status.conditions == cluster.body.status.conditions
    && (status.ready <==> IsReady(cluster.body.status.conditions))
    && status.paused == cluster.body.paused
    && status.labels == cluster.labels
    && status.annotations == cluster.annotations
  }

  /** The version of the topology, or else that of the control plane in the cluster's namespace, if the server
      answered for it from objects. */
  predicate ShowsVersion(version: string, key: Key, cluster: Object, answered: bool, objects: Objects)
    requires cluster.body.ClusterBody?
  {
    if cluster.body.topology.Some? && cluster.body.topology.value.version != "" then
      version == cluster.body.topology.value.version
    else if cluster.body.controlPlaneRef.Some? && cluster.body.controlPlaneRef.value.kind == "KubeadmControlPlane" then
      var plane := Key(KubeadmControlPlane, key.namespace, cluster.body.controlPlaneRef.value.name);
      if answered && plane in objects && objects[plane].body.ControlPlaneBody? then
        version == objects[plane].body.kcpVersion
      else version == ""
    else version == ""
  }

  /** The keys of the cluster's machines. */
  function MachineKeys(objects: Objects, namespace: string, name: string): set<Key> {
    set k | && k in objects
            && k.kind == Machine
            && k.namespace == namespace
            && "cluster.x-k8s.io/cluster-name" in objects[k].labels
            && objects[k].labels["cluster.x-k8s.io/cluster-name"] == name
  }

  predicate HasNode(o: Object) {
    o.body.MachineBody? && o.body.nodeRef.Some?
  }

  /** Those whose machine refers to a node. */
  function WithNode(objects: Objects, keys: set<Key>): set<Key>
    requires keys <= objects.Keys
  {
    set k | k in keys && HasNode(objects[k])
  }

  /** All of the cluster's machines are counted, and those that refer to a node as ready. */
  ghost predicate ShowsMachines(status: Status, objects: Objects) {
    var keys := MachineKeys(objects, status.namespace, status.name);
    && status.totalMachines == |keys|
    && status.readyMachines == |WithNode(objects, keys)|
  }

  /******* Counting *******/

  /** items are exactly the states stored under the keys. */
  ghost predicate AreStoredUnder(items: seq<Item>, objects: Objects, keys: set<Key>) {
    && keys <= objects.Keys
    && (forall i, j | 0 <= i < j < |items| :: items[i].key != items[j].key)
    && (forall i | 0 <= i < |items| :: items[i].key in keys && objects[items[i].key] == items[i].state)
    && (forall k | k in keys :: Item(k, objects[k]) in items)
  }

  lemma {:induction false} StoredAreCounted(items: seq<Item>, objects: Objects, keys: set<Key>)
    requires AreStoredUnder(items, objects, keys)
    ensures |items| == |keys|
    ensures ReadyCount(items) == |WithNode(objects, keys)|
  {
    hide AreStoredUnder;
    StoredKeysExist(items, objects, keys);
    if items == [] {
      assert WithNode(objects, keys) == {};
    } else {
      var init, last := items[..|items| - 1], items[|items| - 1];
      var others := keys - {last.key};
      AllButTheLast(items, objects, keys);
      StoredAreCounted(init, objects, others);
      assert keys == others + {last.key};
      assert WithNode(objects, keys) == WithNode(objects, others) + if HasNode(last.state) then {last.key} else {};
    }
  }

  lemma StoredKeysExist(items: seq<Item>, objects: Objects, keys: set<Key>)
    requires AreStoredUnder(items, objects, keys)
    ensures keys <= objects.Keys && (items == [] ==> keys == {})
  {
  }

  lemma AllButTheLast(items: seq<Item>, objects: Objects, keys: set<Key>)
    requires items != [] && AreStoredUnder(items, objects, keys)
    ensures AreStoredUnder(items[..|items| - 1], objects, keys - {items[|items| - 1].key})
    ensures var last := items[|items| - 1]; last.key in keys && objects[last.key] == last.state
  {
    var init, last := items[..|items| - 1], items[|items| - 1];
    forall i | 0 <= i < |init| ensures init[i].key in keys - {last.key} && objects[init[i].key] == init[i].state {
      assert init[i] == items[i];
    }
    forall k | k in keys - {last.key} ensures Item(k, objects[k]) in init {
      assert Item(k, objects[k]) in items;
    }
  }

  /** Counting the listed machines is counting the stored ones. */
  lemma ListedMachinesAreCounted(w: World, namespace: string, name: string)
    requires Valid(w) && namespace != "" && name != ""
    ensures var machines, keys := Items(w.objects, w.index, MachinesOf(namespace, name)),
                                  MachineKeys(w.objects, namespace, name);
            && |machines| == |keys|
            && ReadyCount(machines) == |WithNode(w.objects, keys)|
  {
    hide HasNode;
    var q := MachinesOf(namespace, name);
    var machines, keys := Items(w.objects, w.index, q), MachineKeys(w.objects, namespace, name);
    assert Distinct(w.index);
    ItemsAreDistinct(w.objects, w.index, q);
    ItemsAreStored(w.objects, w.index, q);
    forall i | 0 <= i < |machines|
      ensures machines[i].key in keys && w.objects[machines[i].key] == machines[i].state
    {
      assert IsListed(w.objects, w.index, q, machines[i]);
    }
    forall k | k in keys ensures Item(k, w.objects[k]) in machines {
      assert IsListed(w.objects, w.index, q, Item(k, w.objects[k]));
    }
    StoredAreCounted(machines, w.objects, keys);
  }

  /******* The query for one cluster *******/

  lemma StatusShowsCluster(key: Key, cluster: Object, version: string, provider: Provider, machines: seq<Item>)
    requires cluster.body.ClusterBody?
    ensures ShowsCluster(StatusOf(key, cluster, version, provider, machines), key, cluster)
    ensures StatusOf(key, cluster, version, provider, machines).version == version
    ensures StatusOf(key, cluster, version, provider, machines).provider == provider
    ensures StatusOf(key, cluster, version, provider, machines).totalMachines == |machines|
    ensures StatusOf(key, cluster, version, provider, machines).readyMachines == ReadyCount(machines)
  {
    hide ConditionTrue, IsReady;
    ReadyIsReady(cluster.body.status.conditions);
  }

  lemma VersionIsShown(s: Sys, ctx: Context, key: Key, cluster: Object)
    requires cluster.body.ClusterBody?
    ensures ShowsVersion(VersionOf(s, ctx, key, cluster).version, key, cluster, Answers(ctx, s),
                         Arrive(s).world.objects)
  {
    hide Answers, Arrive;
  }

  /** Whoever else writes, the query reports an error exactly if its first request finds no cluster. Otherwise every
      field of the status is that field of the cluster then fetched; the provider goes by the cluster's
      infrastructure kind at the second request, the machines are counted in the store at the third, and a version
      the topology does not state is read at the fourth. What a failed later request would tell is left empty. */
  lemma StatusShowsTheStore(s: Sys, ctx: Context, namespace: string, name: string)
    requires Valid(s.world)
    ensures var key := Key(Cluster, namespace, name);
            var result := SingleStatus(s, ctx, namespace, name).result;
            var first := Arrive(s);
            var second := Arrive(first);
            var third := Arrive(second);
            && (result.Success? <==> Answers(ctx, s) && key in first.world.objects)
            && (Answers(ctx, s) && key !in first.world.objects ==> result == Failure(Api(NotFound)))
            && (!Answers(ctx, s) ==> result == Failure(Api(Unavailable)))
            && (result.Success? ==>
                  var status, cluster := result.value, first.world.objects[key];
                  && ShowsCluster(status, key, cluster)
                  && (if && Answers(ctx, first)
                         && key in second.world.objects
                         && second.world.objects[key].body.ClusterBody?
                      then IsProviderOf(second.world.objects[key].body.infrastructureKind, status.provider)
                      else status.provider == UnknownProvider)
                  && (if Answers(ctx, second) then ShowsMachines(status, third.world.objects)
                      else status.totalMachines == status.readyMachines == 0)
                  && ShowsVersion(status.version, key, cluster, Answers(ctx, third), Arrive(third).world.objects))
  {
    hide Valid, Follows, ConditionTrue, IsReady, Items, DetermineProvider, IsProviderOf, Answers, Arrive, MachineKeys,
         HasNode, ReadyCount, StatusOf, VersionOf, ShowsVersion;
    var key := Key(Cluster, namespace, name);
    var first := Arrive(s);
    var second := Arrive(first);
    var third := Arrive(second);
    GetKeepsKind(s, ctx, key);
    if Answers(ctx, s) && key in first.world.objects {
      var cluster := first.world.objects[key];
      ArriveFollows(s);
      ArriveFollows(first);
      ArriveFollows(second);
      FollowsGives(s, first);
      FollowsGives(first, second);
      FollowsGives(second, third);
      NamedIfStored(first.world, key);
      ListedMachinesAreCounted(third.world, namespace, name);
      var again := Get(first, ctx, key);
      var provider := if again.result.Success? && again.result.value.body.ClusterBody? then
                        DetermineProvider(again.result.value.body.infrastructureKind)
                      else UnknownProvider;
      if again.result.Success? && again.result.value.body.ClusterBody? {
        ProviderIsDetermined(again.result.value.body.infrastructureKind);
      }
      var listed := List(second, ctx, MachinesOf(namespace, name));
      var machines := if listed.result.Success? then listed.result.value else [];
      VersionIsShown(third, ctx, key, cluster);
      StatusShowsCluster(key, cluster, VersionOf(third, ctx, key, cluster).version, provider, machines);
      ReadyCountOfNone();
    }
  }

  lemma ReadyCountOfNone()
    ensures ReadyCount([]) == 0
  {
  }

  /******* The listing *******/

  /** part starts at some position of text. */
  predicate IsPartOf(part: string, text: string) {
    exists i | 0 <= i <= |text| :: part <= text[i..]
  }

  lemma {:induction false} ContainsIsPartOf(text: string, part: string)
    ensures Contains(text, part) <==> IsPartOf(part, text)
  {
    assert text[0..] == text;
    if text != "" {
      ContainsIsPartOf(text[1..], part);
      assert forall i | 1 <= i <= |text| :: text[1..][i - 1..] == text[i..];
      if i :| 0 <= i <= |text[1..]| && part <= text[1..][i..] { assert part <= text[i + 1..]; }
      if i :| 1 <= i <= |text| && part <= text[i..] { assert part <= text[1..][i - 1..]; }
    }
  }

  /** What the arguments of the listing ask for: the namespace, or all; every pair of the label selector; and the
      search term, or none, somewhere in the name or a label value, in lower case. */
  ghost predicate IsAskedFor(key: Key, o: Object, namespace: string, filter: Filter) {
    && key.kind == Cluster
    && (namespace == "" || key.namespace == namespace)
    && (forall k | k in filter.selector :: k in o.labels && o.labels[k] == filter.selector[k])
    && (|| filter.search == ""
        || IsPartOf(filter.lower(filter.search), filter.lower(key.name))
        || exists k | k in o.labels :: IsPartOf(filter.lower(filter.search), filter.lower(o.labels[k])))
  }

  lemma PassesIfAskedFor(item: Item, namespace: string, filter: Filter)
    ensures Selects(ClustersOf(namespace), item.key, item.state) && Passes(item, filter) <==>
            IsAskedFor(item.key, item.state, namespace, filter)
  {
    hide Contains, IsPartOf;
    var term := filter.lower(filter.search);
    ContainsIsPartOf(filter.lower(item.key.name), term);
    forall k | k in item.state.labels
      ensures Contains(filter.lower(item.state.labels[k]), term) <==> IsPartOf(term, filter.lower(item.state.labels[k]))
    {
      ContainsIsPartOf(filter.lower(item.state.labels[k]), term);
    }
  }

  lemma {:induction false} KeptIffPasses(items: seq<Item>, filter: Filter, item: Item)
    ensures item in Kept(items, filter) <==> item in items && Passes(item, filter)
  {
    hide Passes;
    if items != [] {
      KeptIffPasses(items[..|items| - 1], filter, item);
      assert items == items[..|items| - 1] + [items[|items| - 1]];
    }
  }

  /** The clusters a listing keeps are exactly the stored ones that are asked for. */
  lemma KeptIffAskedFor(w: World, namespace: string, filter: Filter, item: Item)
    requires Valid(w)
    ensures item in Kept(Items(w.objects, w.index, ClustersOf(namespace)), filter) <==>
            && item.key in w.objects
            && w.objects[item.key] == item.state
            && IsAskedFor(item.key, item.state, namespace, filter)
  {
    hide Passes, IsAskedFor, Items, Kept, Selects;
    var q := ClustersOf(namespace);
    ItemsAreStored(w.objects, w.index, q);
    assert item in Items(w.objects, w.index, q) <==> IsListed(w.objects, w.index, q, item);
    KeptIffPasses(Items(w.objects, w.index, q), filter, item);
    PassesIfAskedFor(item, namespace, filter);
  }

  /** A status that shows the cluster stored under key and, except for a control plane's version, all that the
      listing knows of it. */
  ghost predicate ShowsListed(status: Status, key: Key, cluster: Object) {
    && ShowsCluster(status, key, cluster)
    && IsProviderOf(cluster.body.infrastructureKind, status.provider)
    && (cluster.body.topology.Some? && cluster.body.topology.value.version != "" ==>
          status.version == cluster.body.topology.value.version)
  }

  lemma {:induction false} SummariesShow(s: Sys, ctx: Context, clusters: seq<Item>, machines: seq<Item>, i: nat)
    requires AreClusters(clusters) && i < |clusters|
    ensures var items := Summarize(s, ctx, clusters, machines).items;
            var group := Group(machines, Joined(clusters[i].key.namespace, clusters[i].key.name));
            && |items| == |clusters|
            && ShowsListed(items[i], clusters[i].key, clusters[i].state)
            && items[i].totalMachines == |group|
            && items[i].readyMachines == ReadyCount(group)
    decreases i
  {
    hide Group, StatusOf, DetermineProvider, IsProviderOf, ShowsCluster, ReadyCount;
    SummariesLength(s, ctx, clusters, machines);
    var first := clusters[0];
    var group := Group(machines, Joined(first.key.namespace, first.key.name));
    var one := BulkStatus(s, ctx, first, group);
    if i == 0 {
      ProviderIsDetermined(first.state.body.infrastructureKind);
      StatusShowsCluster(first.key, first.state, VersionOf(s, ctx, first.key, first.state).version,
                         DetermineProvider(first.state.body.infrastructureKind), group);
    } else {
      assert forall j | 0 <= j < |clusters| - 1 :: clusters[1..][j] == clusters[j + 1];
      SummariesShow(one.sys, ctx, clusters[1..], machines, i - 1);
    }
  }

  lemma {:induction false} SummariesLength(s: Sys, ctx: Context, clusters: seq<Item>, machines: seq<Item>)
    requires AreClusters(clusters)
    ensures |Summarize(s, ctx, clusters, machines).items| == |clusters|
    decreases |clusters|
  {
    hide Group, StatusOf, VersionOf;
    if clusters != [] {
      var owner := Joined(clusters[0].key.namespace, clusters[0].key.name);
      SummariesLength(BulkStatus(s, ctx, clusters[0], Group(machines, owner)).sys, ctx, clusters[1..], machines);
    }
  }

  /** The key of the cluster a status is about. */
  function KeyOfStatus(status: Status): Key {
    Key(Cluster, status.namespace, status.name)
  }

  /** Whoever else writes, a listing shows exactly the clusters that were stored and asked for at its first request,
      each once, with their own fields of then; and the machines it counts for a cluster are those stored for it at
      its second request. It fails exactly if one of the two fails. */
  lemma ListShowsTheStore(s: Sys, ctx: Context, namespace: string, filter: Filter)
    requires Valid(s.world) && Namespaced(Arrive(s).world) && Namespaced(Arrive(Arrive(s)).world)
    ensures var result := ListStatuses(s, ctx, namespace, filter).result;
            var seen, counted := Arrive(s).world.objects, Arrive(Arrive(s)).world.objects;
            && (result.Success? <==> Answers(ctx, s) && Answers(ctx, Arrive(s)))
            && (result.Failure? ==> result == Failure(Api(Unavailable)))
            && (result.Success? ==>
                  && (forall i | 0 <= i < |result.value| ::
                        var status := result.value[i];
                        var key := KeyOfStatus(status);
                        && key in seen
                        && IsAskedFor(key, seen[key], namespace, filter)
                        && ShowsListed(status, key, seen[key])
                        && ShowsMachines(status, counted))
                  && (forall key | key in seen && IsAskedFor(key, seen[key], namespace, filter) ::
                        exists i :: 0 <= i < |result.value| && KeyOfStatus(result.value[i]) == key)
                  && (forall i, j | 0 <= i < j < |result.value| ::
                        KeyOfStatus(result.value[i]) != KeyOfStatus(result.value[j])))
  {
    hide Valid, Follows, Kept, Items, Summarize, Group, IsAskedFor, ShowsListed, ShowsMachines, Namespaced, Answers,
         Arrive;
    var seen, counted := Arrive(s).world, Arrive(Arrive(s)).world;
    ArriveFollows(s);
    FollowsGives(s, Arrive(s));
    ArriveFollows(Arrive(s));
    FollowsGives(Arrive(s), Arrive(Arrive(s)));
    KeptAreClusters(s, ctx, namespace, filter);
    if Answers(ctx, s) && Answers(ctx, Arrive(s)) {
      var clusters := Kept(Items(seen.objects, seen.index, ClustersOf(namespace)), filter);
      var machines := Items(counted.objects, counted.index, MachinesOf(namespace, ""));
      var statuses := Summarize(Arrive(Arrive(s)), ctx, clusters, machines).items;
      SummariesLength(Arrive(Arrive(s)), ctx, clusters, machines);
      KeptAreStored(seen, namespace, filter);
      forall i | 0 <= i < |statuses|
        ensures KeyOfStatus(statuses[i]) == clusters[i].key
        ensures ShowsListed(statuses[i], clusters[i].key, clusters[i].state)
        ensures ShowsMachines(statuses[i], counted.objects)
        ensures IsAskedFor(clusters[i].key, clusters[i].state, namespace, filter)
      {
        assert SlashFree(clusters[i].key.namespace) by { NamespacedGives(seen, clusters[i].key); }
        SummaryShowsTheStore(Arrive(Arrive(s)), ctx, namespace, clusters, i);
        KeptIffAskedFor(seen, namespace, filter, clusters[i]);
      }
      forall key | key in seen.objects && IsAskedFor(key, seen.objects[key], namespace, filter)
        ensures exists i :: 0 <= i < |statuses| && KeyOfStatus(statuses[i]) == key
      {
        KeptIffAskedFor(seen, namespace, filter, Item(key, seen.objects[key]));
        var i :| 0 <= i < |clusters| && clusters[i] == Item(key, seen.objects[key]);
        assert KeyOfStatus(statuses[i]) == key;
      }
      KeptHaveDistinctKeys(seen, namespace, filter);
    }
  }

  lemma NamespacedGives(w: World, key: Key)
    requires Namespaced(w) && key in w.objects && key.kind == Cluster
    ensures SlashFree(key.namespace)
  {
  }

  lemma KeptHaveDistinctKeys(w: World, namespace: string, filter: Filter)
    requires Valid(w)
    ensures var kept := Kept(Items(w.objects, w.index, ClustersOf(namespace)), filter);
            forall i, j | 0 <= i < j < |kept| :: kept[i].key != kept[j].key
  {
    assert Distinct(w.index);
    ItemsAreDistinct(w.objects, w.index, ClustersOf(namespace));
    KeptAreDistinct(Items(w.objects, w.index, ClustersOf(namespace)), filter);
  }

  lemma SummaryShowsTheStore(s: Sys, ctx: Context, namespace: string, clusters: seq<Item>, i: nat)
    requires Valid(s.world) && Namespaced(s.world) && AreClusters(clusters) && i < |clusters|
    requires var key := clusters[i].key;
             && key.name != ""
             && key.namespace != ""
             && SlashFree(key.namespace)
             && (namespace == "" || key.namespace == namespace)
    ensures var machines := Items(s.world.objects, s.world.index, MachinesOf(namespace, ""));
            var statuses := Summarize(s, ctx, clusters, machines).items;
            && |statuses| == |clusters|
            && KeyOfStatus(statuses[i]) == clusters[i].key
            && ShowsListed(statuses[i], clusters[i].key, clusters[i].state)
            && ShowsMachines(statuses[i], s.world.objects)
  {
    hide Valid, Items, Summarize, Group, Namespaced, ReadyCount, HasNode, IsReady;
    var key, machines := clusters[i].key, Items(s.world.objects, s.world.index, MachinesOf(namespace, ""));
    SummariesShow(s, ctx, clusters, machines, i);
    GroupIsTheQuery(s.world, namespace, key.namespace, key.name);
    ListedMachinesAreCounted(s.world, key.namespace, key.name);
  }

  /** On one snapshot every status also shows its cluster's version as it is stored. */
  lemma SnapshotShowsVersions(w: World, ctx: Context, namespace: string, filter: Filter)
    requires Valid(w) && Namespaced(w) && !Done(ctx, w)
    ensures var result := ListStatuses(Sys(w, []), ctx, namespace, filter).result;
            && result.Success?
            && forall i | 0 <= i < |result.value| ::
                 var key := KeyOfStatus(result.value[i]);
                 && key in w.objects
                 && w.objects[key].body.ClusterBody?
                 && ShowsVersion(result.value[i].version, key, w.objects[key], true, w.objects)
  {
    hide Valid, Kept, Items, ListStatuses, SingleStatus, Namespaced, ShowsVersion, IsReady, IsProviderOf, ShowsMachines,
         Done;
    CalmArrive(w);
    BulkAgreesWithQueries(w, ctx, namespace, filter);
    KeptAreStored(w, namespace, filter);
    var clusters := Kept(Items(w.objects, w.index, ClustersOf(namespace)), filter);
    var statuses := ListStatuses(Sys(w, []), ctx, namespace, filter).result.value;
    forall i | 0 <= i < |statuses|
      ensures var key := KeyOfStatus(statuses[i]);
              && key in w.objects
              && w.objects[key].body.ClusterBody?
              && ShowsVersion(statuses[i].version, key, w.objects[key], true, w.objects)
    {
      assert Agrees(w, ctx, clusters[i], statuses[i]);
      StatusShowsTheStore(Sys(w, []), ctx, clusters[i].key.namespace, clusters[i].key.name);
    }
  }

  /******* Order *******/

  /** The items follow the order of the index. */
  ghost predicate InOrder(items: seq<Item>, index: seq<Key>) {
    forall i, j, a, b | && 0 <= i < j < |items|
                        && 0 <= a < |index|
                        && 0 <= b < |index|
                        && index[a] == items[i].key
                        && index[b] == items[j].key :: a < b
  }

  lemma {:induction false} ItemsInOrder(objects: Objects, index: seq<Key>, q: Query)
    requires Distinct(index)
    ensures InOrder(Items(objects, index, q), index)
  {
    if index != [] {
      var items, rest := Items(objects, index, q), Items(objects, index[1..], q);
      ItemsInOrder(objects, index[1..], q);
      ItemsAreStored(objects, index[1..], q);
      forall i, j, a, b | && 0 <= i < j < |items| && 0 <= a < |index| && 0 <= b < |index|
                          && index[a] == items[i].key && index[b] == items[j].key ensures a < b
      {
        var skipped := |items| - |rest|;
        assert items[j] == rest[j - skipped];
        assert IsListed(objects, index[1..], q, rest[j - skipped]);
        assert b > 0 && index[1..][b - 1] == rest[j - skipped].key;
        if a > 0 && i >= skipped { assert index[1..][a - 1] == rest[i - skipped].key; }
      }
    }
  }

  lemma {:induction false} KeptInOrder(items: seq<Item>, index: seq<Key>, filter: Filter)
    requires InOrder(items, index)
    ensures InOrder(Kept(items, filter), index)
  {
    hide Passes;
    if items != [] {
      var init, n := items[..|items| - 1], |items| - 1;
      assert forall i | 0 <= i < n :: init[i] == items[i];
      KeptInOrder(init, index, filter);
      KeptIsWithin(init, filter);
      var earlier := Kept(init, filter);
      forall i, a, b | && 0 <= i < |earlier| && 0 <= a < |index| && 0 <= b < |index|
                       && index[a] == earlier[i].key && index[b] == items[n].key ensures a < b
      {
        var m :| 0 <= m < n && init[m] == earlier[i];
        assert items[m] == earlier[i];
      }
    }
  }

  /** The statuses follow the order of the list request. */
  lemma ListKeepsOrder(s: Sys, ctx: Context, namespace: string, filter: Filter)
    requires Valid(s.world) && ListStatuses(s, ctx, namespace, filter).result.Success?
    ensures var statuses, index := ListStatuses(s, ctx, namespace, filter).result.value, Arrive(s).world.index;
            forall i, j, a, b | && 0 <= i < j < |statuses|
                                && 0 <= a < |index|
                                && 0 <= b < |index|
                                && index[a] == KeyOfStatus(statuses[i])
                                && index[b] == KeyOfStatus(statuses[j]) :: a < b
  {
    hide Valid, Follows, Kept, Items, Summarize, Group, IsProviderOf, IsReady;
    var seen := Arrive(s).world;
    ArriveFollows(s);
    FollowsGives(s, Arrive(s));
    KeptAreClusters(s, ctx, namespace, filter);
    var q := ClustersOf(namespace);
    var clusters := Kept(Items(seen.objects, seen.index, q), filter);
    var machines := List(Arrive(s), ctx, MachinesOf(namespace, "")).result.value;
    var statuses := Summarize(Arrive(Arrive(s)), ctx, clusters, machines).items;
    IndexIsDistinct(seen);
    ItemsInOrder(seen.objects, seen.index, q);
    KeptInOrder(Items(seen.objects, seen.index, q), seen.index, filter);
    SummariesLength(Arrive(Arrive(s)), ctx, clusters, machines);
    forall i | 0 <= i < |statuses| ensures KeyOfStatus(statuses[i]) == clusters[i].key {
      SummariesShow(Arrive(Arrive(s)), ctx, clusters, machines, i);
    }
  }
}
