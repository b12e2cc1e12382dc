/** What creating and deleting a ClusterResourceSet leaves, by the entries of the request, and when it succeeds
    (pkg/capi/resourceset.go). */
module ResourceSetOutcomes {
  import opened Wrappers
  import opened Store
  import opened Interleaving
  import opened Footprint
  import opened Capi
  import opened ResourceSets
  import opened ResourceSetOverwrites

  /******* The entries *******/

  /** The entry carries data for this ConfigMap. */
  predicate SetsConfigMap(entry: Entry, name: string) {
    entry.kind == "ConfigMap" && entry.name == name && entry.data != map[]
  }

  predicate SetsSecret(entry: Entry, name: string) {
    entry.kind == "Secret" && entry.name == name && entry.data != map[]
  }

  /** The entry carries a value for this key of this Secret. */
  predicate SetsSecretKey(entry: Entry, name: string, k: string) {
    entry.kind == "Secret" && entry.name == name && k in entry.data
  }

  predicate AreKnown(entries: seq<Entry>) {
    forall i | 0 <= i < |entries| :: entries[i].kind in {"ConfigMap", "Secret"}
  }

  /** An entry is stored under its own name and kind in the namespace of the set. */
  lemma EntryHasItsKey(namespace: string, entry: Entry, name: string)
    requires entry.kind in {"ConfigMap", "Secret"}
    ensures KeyOf(namespace, entry) == Key(ConfigMap, namespace, name) <==>
            entry.kind == "ConfigMap" && entry.name == name
    ensures KeyOf(namespace, entry) == Key(Secret, namespace, name) <==> entry.kind == "Secret" && entry.name == name
  {
    assert |"ConfigMap"| != |"Secret"|;
  }

  ghost predicate ComesAfter(resources: seq<Entry>, i: nat, entry: Entry) {
    exists j | i <= j < |resources| :: resources[j] == entry && resources[j].data != map[]
  }

  lemma {:induction false} InlineIsWithin(resources: seq<Entry>)
    ensures forall n | 0 <= n < |Inline(resources)| :: ComesAfter(resources, 0, Inline(resources)[n])
  {
    if resources != [] {
      var rest := resources[1..];
      InlineIsWithin(rest);
      forall n | 0 <= n < |Inline(resources)| ensures ComesAfter(resources, 0, Inline(resources)[n]) {
        var skipped := |Inline(resources)| - |Inline(rest)|;
        if n >= skipped {
          assert Inline(resources)[n] == Inline(rest)[n - skipped];
          FurtherBack(resources, 0, Inline(resources)[n]);
        } else {
          assert resources[0] == Inline(resources)[n];
        }
      }
    }
  }

  lemma FurtherBack(resources: seq<Entry>, i: nat, entry: Entry)
    requires resources != [] && ComesAfter(resources[1..], i, entry)
    ensures ComesAfter(resources, i + 1, entry) && ComesAfter(resources, 0, entry)
  {
    var j :| i <= j < |resources[1..]| && resources[1..][j] == entry && resources[1..][j].data != map[];
    assert resources[j + 1] == entry;
  }

  /** Where an entry with data stands among those with data. */
  lemma {:induction false} InlineHas(resources: seq<Entry>, i: nat) returns (m: nat)
    requires i < |resources| && resources[i].data != map[]
    ensures m < |Inline(resources)| && Inline(resources)[m] == resources[i]
    ensures forall n | m < n < |Inline(resources)| :: ComesAfter(resources, i + 1, Inline(resources)[n])
  {
    var rest := resources[1..];
    var skipped := |Inline(resources)| - |Inline(rest)|;
    assert forall n | skipped <= n < |Inline(resources)| :: Inline(resources)[n] == Inline(rest)[n - skipped];
    if i == 0 {
      m := 0;
      InlineIsWithin(rest);
      forall n | m < n < |Inline(resources)| ensures ComesAfter(resources, i + 1, Inline(resources)[n]) {
        FurtherBack(resources, 0, Inline(resources)[n]);
      }
    } else {
      m := InlineHas(rest, i - 1);
      forall n | m < n < |Inline(rest)| ensures ComesAfter(resources, i + 1, Inline(rest)[n]) {
        FurtherBack(resources, i, Inline(rest)[n]);
      }
      m := m + skipped;
    }
  }

  lemma {:induction false} WrittenAreKnown(s: Sys, ctx: Context, namespace: string, resources: seq<Entry>)
    requires WriteResources(s, ctx, namespace, resources).err.None?
    ensures AreKnown(resources)
    decreases |resources|
  {
    hide Upsert;
    if resources != [] {
      var one := if resources[0].data == map[] then s
                 else Upsert(s, ctx, KeyOf(namespace, resources[0]), resources[0]).sys;
      WrittenAreKnown(one, ctx, namespace, resources[1..]);
      assert forall i | 1 <= i < |resources| :: resources[i] == resources[1..][i - 1];
    }
  }

  lemma {:induction false} InlineIsKnown(resources: seq<Entry>)
    requires AreKnown(resources)
    ensures AreKnown(Inline(resources))
  {
    InlineIsWithin(resources);
    forall n | 0 <= n < |Inline(resources)| ensures Inline(resources)[n].kind in {"ConfigMap", "Secret"} {
      assert ComesAfter(resources, 0, Inline(resources)[n]);
    }
  }

  /** A call that succeeds had entries of known kinds only. */
  lemma CreatedAreKnown(s: Sys, ctx: Context, opts: SetOptions)
    requires MakeSet(s, ctx, opts).err.None?
    ensures AreKnown(opts.resources) && AreKnown(Inline(opts.resources))
  {
    hide WriteResources, CreateSet, Inline;
    WrittenAreKnown(s, ctx, opts.namespace, opts.resources);
    InlineIsKnown(opts.resources);
  }

  /******* What a successful call leaves, when nobody else writes *******/

  /** A ConfigMap holds the data of the last entry that carries data for it. */
  lemma ConfigMapIsLeft(s: Sys, ctx: Context, opts: SetOptions, i: nat, name: string)
    requires Valid(s.world) && Quiet(s.script) && MakeSet(s, ctx, opts).err.None?
    requires i < |opts.resources| && SetsConfigMap(opts.resources[i], name)
    requires forall j | i < j < |opts.resources| :: !SetsConfigMap(opts.resources[j], name)
    ensures BodyOf(Lookup(MakeSet(s, ctx, opts).sys.world.objects, Key(ConfigMap, opts.namespace, name))) ==
            Some(ConfigMapBody(opts.resources[i].data))
  {
    hide Valid, Quiet, MakeSet, FinalBody;
    var key, inline := Key(ConfigMap, opts.namespace, name), Inline(opts.resources);
    ResourceSetContents(s, ctx, opts, key);
    CreatedAreKnown(s, ctx, opts);
    var m := InlineHas(opts.resources, i);
    EntryHasItsKey(opts.namespace, inline[m], name);
    assert |"ConfigMap"| != |"Secret"|;
    forall n | m < n < |inline| ensures KeyOf(opts.namespace, inline[n]) != key {
      EntryHasItsKey(opts.namespace, inline[n], name);
      assert ComesAfter(opts.resources, i + 1, inline[n]);
    }
    LastConfigMapWins(opts.namespace, inline, m, BodyOf(Lookup(s.world.objects, key)));
  }

  lemma SecretOrNone(w: World, namespace: string, name: string)
    requires Valid(w)
    ensures IsSecretOrNone(BodyOf(Lookup(w.objects, Key(Secret, namespace, name))))
  {
    if Key(Secret, namespace, name) in w.objects { KindOfStored(w, Key(Secret, namespace, name)); }
  }

  /** A Secret that an entry carries data for has the type of a resource set, and under each key the value of the
      last entry that carries one for it. */
  lemma SecretIsLeft(s: Sys, ctx: Context, opts: SetOptions, i: nat, name: string, k: string)
    requires Valid(s.world) && Quiet(s.script) && MakeSet(s, ctx, opts).err.None?
    requires i < |opts.resources| && SetsSecretKey(opts.resources[i], name, k)
    requires forall j | i < j < |opts.resources| :: !SetsSecretKey(opts.resources[j], name, k)
    ensures var left := BodyOf(Lookup(MakeSet(s, ctx, opts).sys.world.objects, Key(Secret, opts.namespace, name)));
            && left.Some?
            && left.value.SecretBody?
            && left.value.secretType == "addons.cluster.x-k8s.io/resource-set"
            && k in left.value.secretData
            && left.value.secretData[k] == opts.resources[i].data[k]
  {
    hide Valid, Quiet, MakeSet, FinalBody;
    var key, inline := Key(Secret, opts.namespace, name), Inline(opts.resources);
    var start := BodyOf(Lookup(s.world.objects, key));
    SecretOrNone(s.world, opts.namespace, name);
    ResourceSetContents(s, ctx, opts, key);
    CreatedAreKnown(s, ctx, opts);
    var m := InlineHas(opts.resources, i);
    EntryHasItsKey(opts.namespace, inline[m], name);
    forall n | m < n < |inline| ensures !WritesTo(opts.namespace, inline[n], key, k) {
      EntryHasItsKey(opts.namespace, inline[n], name);
      assert ComesAfter(opts.resources, i + 1, inline[n]);
    }
    SecretTypeIsForced(opts.namespace, inline, key, start);
    LastSecretKeyWins(opts.namespace, inline, key, k, start, m);
  }

  /** A key of a Secret that no entry carries a value for keeps its value, or stays absent. */
  lemma OtherSecretKeysStay(s: Sys, ctx: Context, opts: SetOptions, name: string, k: string)
    requires Valid(s.world) && Quiet(s.script) && MakeSet(s, ctx, opts).err.None?
    requires forall j | 0 <= j < |opts.resources| :: !SetsSecretKey(opts.resources[j], name, k)
    ensures var key := Key(Secret, opts.namespace, name);
            ValueUnder(BodyOf(Lookup(MakeSet(s, ctx, opts).sys.world.objects, key)), k) ==
            ValueUnder(BodyOf(Lookup(s.world.objects, key)), k)
  {
    hide Valid, Quiet, MakeSet, FinalBody;
    var key, inline := Key(Secret, opts.namespace, name), Inline(opts.resources);
    SecretOrNone(s.world, opts.namespace, name);
    ResourceSetContents(s, ctx, opts, key);
    CreatedAreKnown(s, ctx, opts);
    InlineIsWithin(opts.resources);
    forall n | 0 <= n < |inline| ensures !WritesTo(opts.namespace, inline[n], key, k) {
      EntryHasItsKey(opts.namespace, inline[n], name);
      assert ComesAfter(opts.resources, 0, inline[n]);
    }
    UnwrittenSecretKeyStays(opts.namespace, inline, key, k, BodyOf(Lookup(s.world.objects, key)));
  }

  /** Whatever no entry carries data for is as it was, apart from the set itself. */
  lemma OthersAreLeft(s: Sys, ctx: Context, opts: SetOptions, key: Key)
    requires Valid(s.world) && Quiet(s.script) && MakeSet(s, ctx, opts).err.None?
    requires key != Key(ClusterResourceSet, opts.namespace, opts.name)
    requires forall j | 0 <= j < |opts.resources| ::
               && !(SetsConfigMap(opts.resources[j], key.name) && key == Key(ConfigMap, opts.namespace, key.name))
               && !(SetsSecret(opts.resources[j], key.name) && key == Key(Secret, opts.namespace, key.name))
    ensures BodyOf(Lookup(MakeSet(s, ctx, opts).sys.world.objects, key)) == BodyOf(Lookup(s.world.objects, key))
  {
    hide Valid, Quiet, MakeSet, FinalBody;
    var inline := Inline(opts.resources);
    ResourceSetContents(s, ctx, opts, key);
    CreatedAreKnown(s, ctx, opts);
    InlineIsWithin(opts.resources);
    forall n | 0 <= n < |inline| ensures KeyOf(opts.namespace, inline[n]) != key {
      EntryHasItsKey(opts.namespace, inline[n], key.name);
      assert ComesAfter(opts.resources, 0, inline[n]);
    }
    UnnamedStays(opts.namespace, inline, key, BodyOf(Lookup(s.world.objects, key)));
  }

  /******* Success *******/

  /** Whoever else writes, a request without a selector, without entries or with another strategy is refused before
      anything is sent. */
  lemma MalformedSendsNothing(s: Sys, ctx: Context, opts: SetOptions)
    requires opts.selector == map[] || opts.resources == [] || opts.strategy !in {"", "ApplyOnce", "Reconcile"}
    ensures MakeSet(s, ctx, opts) == Outcome(s, Some(Invalid))
  {
    hide WriteResources, CreateSet;
  }

  /** The entry is of a known kind and, if it carries data, has a name the server takes. */
  predicate IsWritable(namespace: string, entry: Entry) {
    && entry.kind in {"ConfigMap", "Secret"}
    && (entry.data != map[] ==> namespace != "" && entry.name != "")
  }

  lemma {:induction false} CalmWritesSucceedIff(w: World, ctx: Context, namespace: string, resources: seq<Entry>)
    requires Valid(w) && !Done(ctx, w)
    ensures var out := WriteResources(Sys(w, []), ctx, namespace, resources);
            && (out.err.None? <==> forall i | 0 <= i < |resources| :: IsWritable(namespace, resources[i]))
            && (out.err.None? ==> out.sys == Sys(out.sys.world, []) && !Done(ctx, out.sys.world))
    decreases |resources|
  {
    hide Valid, Done, Upsert;
    if resources != [] {
      var rest := resources[1..];
      assert forall i | 0 <= i < |rest| :: rest[i] == resources[i + 1];
      assert (forall i | 0 <= i < |resources| :: IsWritable(namespace, resources[i])) <==>
             IsWritable(namespace, resources[0]) &&
             forall i | 0 <= i < |rest| :: IsWritable(namespace, rest[i]) by {
        if forall i | 0 <= i < |rest| :: IsWritable(namespace, rest[i]) {
          assert forall i | 1 <= i < |resources| :: resources[i] == rest[i - 1];
        }
      }
      if KnownKind(resources[0]) {
        if resources[0].data == map[] {
          CalmWritesSucceedIff(w, ctx, namespace, rest);
        } else {
          CalmUpsert(w, ctx, namespace, resources[0]);
          var one := Upsert(Sys(w, []), ctx, KeyOf(namespace, resources[0]), resources[0]);
          if one.err.None? { CalmWritesSucceedIff(one.sys.world, ctx, namespace, rest); }
        }
      }
    }
  }

  /** Upserts write no ClusterResourceSet. */
  lemma SetIsNotUpserted(s: Sys, ctx: Context, opts: SetOptions)
    requires Valid(s.world) && Quiet(s.script)
    ensures var key := Key(ClusterResourceSet, opts.namespace, opts.name);
            var end := WriteResources(s, ctx, opts.namespace, opts.resources).sys.world.objects;
            key in end <==> key in s.world.objects
  {
    hide Valid, Quiet, Follows, Upserts, OnlyOurs, Replay, Fits;
    var key := Key(ClusterResourceSet, opts.namespace, opts.name);
    var out := WriteResources(s, ctx, opts.namespace, opts.resources);
    WriteResourcesMade(s, ctx, opts.namespace, opts.resources);
    FollowsGives(s, out.sys);
    QuietHistory(s, out.sys);
    var made := Made(s, out.sys);
    UpsertsLength(opts.namespace, Inline(opts.resources), made);
    ReplayedUpserts(opts.namespace, Inline(opts.resources), s.world.objects, made, key);
    UnnamedStays(opts.namespace, Inline(opts.resources)[..|made|], key, BodyOf(Lookup(s.world.objects, key)));
  }

  /** Without faults and other writers a creation succeeds exactly if the selector and the entries are there, the
      strategy is one of the two or left open, every entry can be written, and the set is named and new. */
  lemma CreationSucceedsIff(w: World, ctx: Context, opts: SetOptions)
    requires Valid(w)
    ensures MakeSet(Sys(w, []), ctx, opts).err.None? <==>
            && !Done(ctx, w)
            && opts.selector != map[]
            && opts.resources != []
            && opts.strategy in {"", "ApplyOnce", "Reconcile"}
            && (forall i | 0 <= i < |opts.resources| :: IsWritable(opts.namespace, opts.resources[i]))
            && opts.namespace != ""
            && opts.name != ""
            && Key(ClusterResourceSet, opts.namespace, opts.name) !in w.objects
  {
    hide Valid, Done, WriteResources, IsWritable;
    if Done(ctx, w) {
      CalmArrive(w);
      DoneWrites(w, ctx, opts.namespace, opts.resources);
    } else {
      CalmWritesSucceedIff(w, ctx, opts.namespace, opts.resources);
      SetIsNotUpserted(Sys(w, []), ctx, opts);
      CalmArrive(WriteResources(Sys(w, []), ctx, opts.namespace, opts.resources).sys.world);
    }
  }

  /******* Deletion *******/

  /** Whoever else writes, deleting a set removes at most the set named, and only a lost reply hides that. */
  lemma RemovalIsTheSet(s: Sys, ctx: Context, namespace: string, name: string)
    ensures var out := RemoveSet(s, ctx, namespace, name);
            var made := Made(s, out.sys);
            && Extends(s, out.sys)
            && |made| <= 1
            && (made == [] ==> out.err.Some?)
            && (made != [] ==>
                  && made[0].Write?
                  && made[0].actor == Ours
                  && made[0].key == Key(ClusterResourceSet, namespace, name)
                  && made[0].before.Some?
                  && made[0].after.None?
                  && out.err in {None, Some(Api(Unavailable))})
  {
    hide Made, Delete, Extends;
    MadeNothing(s, s);
    ArriveMade(s);
    var key := Key(ClusterResourceSet, namespace, name);
    var got := Get(s, ctx, key);
    if got.result.Success? {
      DeleteMade(got.sys, ctx, key);
      MadeAppend(s, got.sys, Delete(got.sys, ctx, key).sys);
    }
  }

  /** It asks no policy: without faults and other writers it succeeds exactly if the set is there. */
  lemma RemovalSucceedsIff(w: World, ctx: Context, namespace: string, name: string)
    ensures var out := RemoveSet(Sys(w, []), ctx, namespace, name);
            var key := Key(ClusterResourceSet, namespace, name);
            && (out.err.None? <==> !Done(ctx, w) && key in w.objects)
            && out.sys.world.objects == if out.err.None? then w.objects - {key} else w.objects
  {
    CalmArrive(w);
  }
}
