/** The bulk listing agrees with a query per cluster (pkg/mcp/handlers/cluster.go, pkg/capi/utils.go). */
module ListingSafety {
  import opened Wrappers
  import opened Policy
  import opened Store
  import opened Interleaving
  import opened Capi
  import opened Listing

  /******* The string key *******/

  predicate SlashFree(s: string) {
    '/' !in s
  }

  /** Slash-free namespaces make the joined key as good as the pair. */
  lemma JoinedIsInjective(namespace: string, name: string, namespace': string, name': string)
    requires SlashFree(namespace) && SlashFree(namespace')
    requires Joined(namespace, name) == Joined(namespace', name')
    ensures namespace == namespace' && name == name'
  {
    var a, b := Joined(namespace, name), Joined(namespace', name');
    assert a[|namespace|] == '/' && b[|namespace'|] == '/';
    assert forall i | 0 <= i < |namespace| :: a[i] == namespace[i];
    assert forall i | 0 <= i < |namespace'| :: b[i] == namespace'[i];
    assert |namespace| == |namespace'|;
    assert a[..|namespace|] == namespace && b[..|namespace'|] == namespace';
    assert a[|namespace| + 1..] == name && b[|namespace'| + 1..] == name';
  }

  /** Why the condition is stated: with a slash in a namespace different clusters would share a key. */
  lemma JoinedCollides(a: string, b: string, c: string)
    ensures Joined(a, Joined(b, c)) == Joined(Joined(a, b), c)
    ensures a != Joined(a, b)
  {
    assert |a| < |Joined(a, b)|;
  }

  /******* Groups *******/

  /** The machine is labelled with this cluster and lives in its namespace. */
  predicate Belongs(machine: Item, namespace: string, name: string) {
    machine.key.namespace == namespace && Read(machine.state.labels, CLUSTER_NAME) == name
  }

  /** The machines of one cluster, in list order. */
  function Owned(machines: seq<Item>, namespace: string, name: string): seq<Item> {
    if machines == [] then []
    else (if Belongs(machines[0], namespace, name) then [machines[0]] else []) + Owned(machines[1..], namespace, name)
  }

  lemma {:induction false} GroupAppend(a: seq<Item>, b: seq<Item>, owner: string)
    ensures Group(a + b, owner) == Group(a, owner) + Group(b, owner)
  {
    if b == [] {
      assert a + b == a;
    } else {
      assert (a + b)[..|a + b| - 1] == a + b[..|b| - 1];
      GroupAppend(a, b[..|b| - 1], owner);
    }
  }

  lemma GroupHead(machines: seq<Item>, owner: string)
    requires machines != []
    ensures Group(machines, owner) ==
            (if OwnerOf(machines[0]) == owner then [machines[0]] else []) + Group(machines[1..], owner)
  {
    var one := [machines[0]];
    assert one[..|one| - 1] == [];
    assert Group([], owner) == [];
    assert machines == one + machines[1..];
    GroupAppend(one, machines[1..], owner);
  }

  /** The machine has the cluster's joined key without belonging to it. */
  predicate Collides(machine: Item, namespace: string, name: string) {
    OwnerOf(machine) == Joined(namespace, name) && !Belongs(machine, namespace, name)
  }

  /** The group under a cluster's key is exactly its machines, in list order, if and only if no machine's key
      collides with it. */
  lemma {:induction false} GroupIsOwnedIffNothingCollides(machines: seq<Item>, namespace: string, name: string)
    ensures Group(machines, Joined(namespace, name)) == Owned(machines, namespace, name) <==>
            forall i | 0 <= i < |machines| :: !Collides(machines[i], namespace, name)
    ensures |Group(machines, Joined(namespace, name))| >= |Owned(machines, namespace, name)|
    ensures |Group(machines, Joined(namespace, name))| == |Owned(machines, namespace, name)| <==>
            forall i | 0 <= i < |machines| :: !Collides(machines[i], namespace, name)
  {
    if machines == [] {
    } else {
      var rest := machines[1..];
      GroupHead(machines, Joined(namespace, name));
      GroupIsOwnedIffNothingCollides(rest, namespace, name);
      assert forall i | 0 <= i < |rest| :: rest[i] == machines[i + 1];
      assert (forall i | 0 <= i < |machines| :: !Collides(machines[i], namespace, name)) <==>
             (!Collides(machines[0], namespace, name) &&
              forall i | 0 <= i < |rest| :: !Collides(rest[i], namespace, name)) by {
        if && !Collides(machines[0], namespace, name)
           && forall i | 0 <= i < |rest| :: !Collides(rest[i], namespace, name)
        {
          forall i | 0 <= i < |machines| ensures !Collides(machines[i], namespace, name) {
            if i > 0 { assert machines[i] == rest[i - 1]; }
          }
        }
      }
      var g, o := Group(machines, Joined(namespace, name)), Owned(machines, namespace, name);
      if Belongs(machines[0], namespace, name) {
        assert g[1..] == Group(rest, Joined(namespace, name)) && o[1..] == Owned(rest, namespace, name);
      }
    }
  }

  /** A machine stands in its group behind exactly the machines of that group listed before it. */
  lemma {:induction false} GroupKeepsOrder(machines: seq<Item>, i: nat)
    requires i < |machines|
    ensures var owner := OwnerOf(machines[i]);
            var before := |Group(machines[..i], owner)|;
            before < |Group(machines, owner)| && Group(machines, owner)[before] == machines[i]
  {
    if i < |machines| - 1 {
      GroupKeepsOrder(machines[..|machines| - 1], i);
      assert machines[..|machines| - 1][..i] == machines[..i];
    }
  }

  /** All the machines in the groups of the owners. */
  function Grouped(owners: seq<string>, machines: seq<Item>): multiset<Item> {
    if owners == [] then multiset{} else multiset(Group(machines, owners[0])) + Grouped(owners[1..], machines)
  }

  /** The machines of none of the owners, in list order. */
  function Leftover(owners: seq<string>, machines: seq<Item>): seq<Item> {
    if machines == [] then []
    else
      var earlier := Leftover(owners, machines[..|machines| - 1]);
      var last := machines[|machines| - 1];
      if OwnerOf(last) in owners then earlier else earlier + [last]
  }

  lemma {:induction false} OneMoreMachine(owners: seq<string>, machines: seq<Item>)
    requires machines != [] && Distinct(owners)
    ensures var last := machines[|machines| - 1];
            Grouped(owners, machines) ==
            Grouped(owners, machines[..|machines| - 1]) + if OwnerOf(last) in owners then multiset{last} else multiset{}
  {
    if owners != [] {
      var init, last := machines[..|machines| - 1], machines[|machines| - 1];
      var group, earlier := Group(machines, owners[0]), Group(init, owners[0]);
      OneMoreMachine(owners[1..], machines);
      assert owners[0] !in owners[1..];
      AddsOne(multiset(earlier), Grouped(owners[1..], init), Grouped(owners, init), last);
      if OwnerOf(last) == owners[0] {
        assert group == earlier + [last];
        assert multiset(group) == multiset(earlier) + multiset{last};
      } else {
        assert group == earlier;
      }
    }
  }

  /** The groups partition the machines: every machine listed is in the group of exactly one owner, or in none. */
  lemma {:induction false} GroupsPartition(owners: seq<string>, machines: seq<Item>)
    requires Distinct(owners)
    ensures Grouped(owners, machines) + multiset(Leftover(owners, machines)) == multiset(machines)
  {
    if machines == [] {
      NoMachines(owners);
    } else {
      var init, last := machines[..|machines| - 1], machines[|machines| - 1];
      OneMoreMachine(owners, machines);
      GroupsPartition(owners, init);
      AddsOne(Grouped(owners, init), multiset(Leftover(owners, init)), multiset(init), last);
      assert machines == init + [last];
      assert multiset(machines) == multiset(init) + multiset{last};
      if OwnerOf(last) in owners {
        assert Leftover(owners, machines) == Leftover(owners, init);
      } else {
        assert Leftover(owners, machines) == Leftover(owners, init) + [last];
        assert multiset(Leftover(owners, machines)) == multiset(Leftover(owners, init)) + multiset{last};
        assert Grouped(owners, machines) == Grouped(owners, init);
      }
    }
  }

  lemma AddsOne(a: multiset<Item>, b: multiset<Item>, sum: multiset<Item>, last: Item)
    requires a + b == sum
    ensures (a + multiset{last}) + b == sum + multiset{last} == a + (b + multiset{last})
  {
  }

  lemma {:induction false} NoMachines(owners: seq<string>)
    ensures Grouped(owners, []) == multiset{}
  {
    if owners != [] { NoMachines(owners[1..]); }
  }

  /******* One snapshot *******/

  /** The names of namespaces have no slash. */
  ghost predicate Namespaced(w: World) {
    forall k | k in w.objects && k.kind in {Cluster, Machine} :: SlashFree(k.namespace)
  }

  /** Filtering the list of all machines is querying for the cluster's. */
  lemma {:induction false} OwnedIsTheQuery(
    objects: Objects, index: seq<Key>, all: string, namespace: string, name: string)
    requires namespace != "" && name != "" && (all == "" || all == namespace)
    ensures Owned(Items(objects, index, MachinesOf(all, "")), namespace, name) ==
            Items(objects, index, MachinesOf(namespace, name))
  {
    if index != [] {
      OwnedIsTheQuery(objects, index[1..], all, namespace, name);
      var items := Items(objects, index, MachinesOf(all, ""));
      if index[0] in objects && Selects(MachinesOf(all, ""), index[0], objects[index[0]]) {
        assert items[1..] == Items(objects, index[1..], MachinesOf(all, ""));
      }
    }
  }

  /** The group under a cluster's key is what a query for its machines returns. */
  lemma GroupIsTheQuery(w: World, all: string, namespace: string, name: string)
    requires Namespaced(w) && namespace != "" && SlashFree(namespace) && name != "" && (all == "" || all == namespace)
    ensures Group(Items(w.objects, w.index, MachinesOf(all, "")), Joined(namespace, name)) ==
            Items(w.objects, w.index, MachinesOf(namespace, name))
  {
    var machines := Items(w.objects, w.index, MachinesOf(all, ""));
    ItemsAreStored(w.objects, w.index, MachinesOf(all, ""));
    forall i | 0 <= i < |machines| ensures !Collides(machines[i], namespace, name) {
      assert IsListed(w.objects, w.index, MachinesOf(all, ""), machines[i]);
      var labelled := Read(machines[i].state.labels, CLUSTER_NAME);
      if OwnerOf(machines[i]) == Joined(namespace, name) {
        JoinedIsInjective(machines[i].key.namespace, labelled, namespace, name);
      }
    }
    GroupIsOwnedIffNothingCollides(machines, namespace, name);
    OwnedIsTheQuery(w.objects, w.index, all, namespace, name);
  }

  lemma CalmVersion(w: World, ctx: Context, key: Key, cluster: Object)
    requires cluster.body.ClusterBody?
    ensures VersionOf(Sys(w, []), ctx, key, cluster).sys == Sys(w, [])
  {
    CalmArrive(w);
  }

  /** The status a query for one stored cluster returns. */
  lemma CalmSingle(w: World, ctx: Context, item: Item, machines: seq<Item>)
    requires Valid(w) && !Done(ctx, w)
    requires item.key in w.objects && w.objects[item.key] == item.state && item.key.kind == Cluster
    requires machines == Items(w.objects, w.index, MachinesOf(item.key.namespace, item.key.name))
    ensures item.state.body.ClusterBody?
    ensures SingleStatus(Sys(w, []), ctx, item.key.namespace, item.key.name).result ==
            BulkStatus(Sys(w, []), ctx, item, machines).result
  {
    hide Valid, ConditionTrue, ReadyCount, Items, VersionOf, DetermineProvider;
    CalmArrive(w);
    KindOfStored(w, item.key);
    assert item.key == Key(Cluster, item.key.namespace, item.key.name);
  }

  /** The listed clusters are stored, and under distinct keys. */
  lemma KeptAreStored(w: World, namespace: string, filter: Filter)
    requires Valid(w)
    ensures var kept := Kept(Items(w.objects, w.index, ClustersOf(namespace)), filter);
            && AreClusters(kept)
            && forall i | 0 <= i < |kept| ::
                 && kept[i].key in w.objects
                 && w.objects[kept[i].key] == kept[i].state
                 && (namespace == "" || kept[i].key.namespace == namespace)
                 && kept[i].key.name != ""
                 && kept[i].key.namespace != ""
  {
    hide Passes;
    var items := Items(w.objects, w.index, ClustersOf(namespace));
    var kept := Kept(items, filter);
    KeptIsWithin(items, filter);
    ItemsAreStored(w.objects, w.index, ClustersOf(namespace));
    forall i | 0 <= i < |kept|
      ensures && kept[i].key in w.objects
              && w.objects[kept[i].key] == kept[i].state
              && kept[i].key.kind == Cluster
              && (namespace == "" || kept[i].key.namespace == namespace)
    {
      assert IsListed(w.objects, w.index, ClustersOf(namespace), kept[i]);
    }
  }

  /** Each summary is what the per-cluster query returns. */
  ghost predicate Agrees(w: World, ctx: Context, cluster: Item, status: Status)
    requires Valid(w)
  {
    SingleStatus(Sys(w, []), ctx, cluster.key.namespace, cluster.key.name).result == Success(status)
  }

  lemma {:induction false} SummariesAgree(w: World, ctx: Context, all: string, clusters: seq<Item>)
    requires Valid(w) && Namespaced(w) && !Done(ctx, w) && AreClusters(clusters)
    requires forall i | 0 <= i < |clusters| ::
               && clusters[i].key in w.objects
               && w.objects[clusters[i].key] == clusters[i].state
               && (all == "" || clusters[i].key.namespace == all)
               && clusters[i].key.name != ""
               && clusters[i].key.namespace != ""
    ensures var out := Summarize(Sys(w, []), ctx, clusters, Items(w.objects, w.index, MachinesOf(all, "")));
            && out.sys == Sys(w, [])
            && |out.items| == |clusters|
            && forall i | 0 <= i < |clusters| :: Agrees(w, ctx, clusters[i], out.items[i])
    decreases |clusters|
  {
    hide Valid, SingleStatus, Items, Group, VersionOf, StatusOf;
    if clusters != [] {
      var first, rest := clusters[0], clusters[1..];
      var machines := Items(w.objects, w.index, MachinesOf(all, ""));
      assert forall i | 0 <= i < |rest| :: rest[i] == clusters[i + 1];
      GroupIsTheQuery(w, all, first.key.namespace, first.key.name);
      CalmSingle(w, ctx, first, Group(machines, Joined(first.key.namespace, first.key.name)));
      CalmVersion(w, ctx, first.key, first.state);
      SummariesAgree(w, ctx, all, rest);
      var out := Summarize(Sys(w, []), ctx, clusters, machines);
      forall i | 0 <= i < |clusters| ensures Agrees(w, ctx, clusters[i], out.items[i]) {
        if i > 0 { assert Agrees(w, ctx, rest[i - 1], out.items[i]); }
      }
    }
  }

  /** On one store snapshot the bulk listing gives every cluster that passes the filter, in list order, exactly
      the status the per-cluster query gives. */
  lemma BulkAgreesWithQueries(w: World, ctx: Context, namespace: string, filter: Filter)
    requires Valid(w) && Namespaced(w) && !Done(ctx, w)
    ensures var clusters := Kept(Items(w.objects, w.index, ClustersOf(namespace)), filter);
            var out := ListStatuses(Sys(w, []), ctx, namespace, filter).result;
            && out.Success?
            && |out.value| == |clusters|
            && forall i | 0 <= i < |clusters| :: Agrees(w, ctx, clusters[i], out.value[i])
  {
    hide Valid, Items, Kept, Summarize, Agrees, Namespaced;
    CalmArrive(w);
    KeptAreStored(w, namespace, filter);
    SummariesAgree(w, ctx, namespace, Kept(Items(w.objects, w.index, ClustersOf(namespace)), filter));
  }

  /******* Totals *******/

  function OwnersOf(clusters: seq<Item>): (owners: seq<string>)
    ensures |owners| == |clusters|
    ensures forall i | 0 <= i < |owners| :: owners[i] == Joined(clusters[i].key.namespace, clusters[i].key.name)
  {
    seq(|clusters|, i requires 0 <= i < |clusters| => Joined(clusters[i].key.namespace, clusters[i].key.name))
  }

  function SumOfTotals(items: seq<Status>): nat {
    if items == [] then 0 else items[0].totalMachines + SumOfTotals(items[1..])
  }

  /** The totals count the grouped machines. */
  lemma {:induction false} SummariesTotal(s: Sys, ctx: Context, clusters: seq<Item>, machines: seq<Item>)
    requires AreClusters(clusters)
    ensures SumOfTotals(Summarize(s, ctx, clusters, machines).items) == |Grouped(OwnersOf(clusters), machines)|
    decreases |clusters|
  {
    hide VersionOf, Group;
    if clusters != [] {
      var owner := Joined(clusters[0].key.namespace, clusters[0].key.name);
      var one := BulkStatus(s, ctx, clusters[0], Group(machines, owner));
      SummariesTotal(one.sys, ctx, clusters[1..], machines);
      assert OwnersOf(clusters)[1..] == OwnersOf(clusters[1..]);
      var items := Summarize(s, ctx, clusters, machines).items;
      assert items[1..] == Summarize(one.sys, ctx, clusters[1..], machines).items;
    }
  }

  lemma {:induction false} KeptAreDistinct(items: seq<Item>, filter: Filter)
    requires forall i, j | 0 <= i < j < |items| :: items[i].key != items[j].key
    ensures forall i, j | 0 <= i < j < |Kept(items, filter)| :: Kept(items, filter)[i].key != Kept(items, filter)[j].key
  {
    hide Passes;
    if items != [] {
      var init := items[..|items| - 1];
      KeptAreDistinct(init, filter);
      KeptIsWithin(init, filter);
      var last := items[|items| - 1];
      forall i | 0 <= i < |Kept(init, filter)| ensures Kept(init, filter)[i].key != last.key {
        var m :| 0 <= m < |init| && init[m] == Kept(init, filter)[i];
        assert items[m] == init[m];
      }
    }
  }

  /** Whatever happens between the requests, the totals of the listed clusters and the machines that belong to
      none of them add up to the machines listed: no machine is counted twice and none is lost. */
  lemma TotalsAddUp(s: Sys, ctx: Context, namespace: string, filter: Filter)
    requires Valid(s.world) && Namespaced(Arrive(s).world)
    requires ListStatuses(s, ctx, namespace, filter).result.Success?
    ensures var seen := Arrive(s).world;
            var listed := Arrive(Arrive(s)).world;
            var clusters := Kept(Items(seen.objects, seen.index, ClustersOf(namespace)), filter);
            var machines := Items(listed.objects, listed.index, MachinesOf(namespace, ""));
            var statuses := ListStatuses(s, ctx, namespace, filter).result.value;
            SumOfTotals(statuses) + |Leftover(OwnersOf(clusters), machines)| == |machines|
  {
    hide Valid, Kept, Items, Summarize, Follows, Distinct;
    var w := Arrive(s).world;
    ArriveFollows(s);
    FollowsGives(s, Arrive(s));
    KeptAreClusters(s, ctx, namespace, filter);
    var listed := Arrive(Arrive(s)).world;
    var clusters := Kept(Items(w.objects, w.index, ClustersOf(namespace)), filter);
    var machines := Items(listed.objects, listed.index, MachinesOf(namespace, ""));
    OwnersAreDistinct(w, namespace, filter);
    SummariesTotal(Arrive(Arrive(s)), ctx, clusters, machines);
    GroupsPartition(OwnersOf(clusters), machines);
    SizesAdd(Grouped(OwnersOf(clusters), machines), Leftover(OwnersOf(clusters), machines), machines);
  }

  lemma SizesAdd(grouped: multiset<Item>, rest: seq<Item>, machines: seq<Item>)
    requires grouped + multiset(rest) == multiset(machines)
    ensures |grouped| + |rest| == |machines|
  {
    assert |grouped + multiset(rest)| == |grouped| + |multiset(rest)|;
  }

  lemma OwnersAreDistinct(w: World, namespace: string, filter: Filter)
    requires Valid(w) && Namespaced(w)
    ensures Distinct(OwnersOf(Kept(Items(w.objects, w.index, ClustersOf(namespace)), filter)))
  {
    var items := Items(w.objects, w.index, ClustersOf(namespace));
    var kept := Kept(items, filter);
    ItemsAreDistinct(w.objects, w.index, ClustersOf(namespace));
    KeptAreDistinct(items, filter);
    KeptAreStored(w, namespace, filter);
    var owners := OwnersOf(kept);
    forall i, j | 0 <= i < j < |owners| ensures owners[i] != owners[j] {
      if owners[i] == owners[j] {
        JoinedIsInjective(kept[i].key.namespace, kept[i].key.name, kept[j].key.namespace, kept[j].key.name);
      }
    }
  }
}
