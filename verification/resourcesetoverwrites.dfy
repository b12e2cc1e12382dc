/** When creating a ClusterResourceSet changes objects that were there before (pkg/capi/resourceset.go,
    pkg/mcp/handlers/readonly.go). */
module ResourceSetOverwrites {
  import opened Wrappers
  import opened Policy
  import opened Store
  import opened Interleaving
  import opened Footprint
  import opened Capi
  import opened ResourceSets

  /******* The condition *******/

  /** Entry i is the last of the entries that names key. */
  predicate IsLastNaming(namespace: string, entries: seq<Entry>, i: nat, key: Key) {
    && i < |entries|
    && KeyOf(namespace, entries[i]) == key
    && forall j | i < j < |entries| :: KeyOf(namespace, entries[j]) != key
  }

  /** Entry i is the last of the entries that writes k of the Secret. */
  predicate IsLastWriting(namespace: string, entries: seq<Entry>, i: nat, secret: Key, k: string) {
    && i < |entries|
    && WritesTo(namespace, entries[i], secret, k)
    && forall j | i < j < |entries| :: !WritesTo(namespace, entries[j], secret, k)
  }

  predicate IsNamed(namespace: string, entries: seq<Entry>, key: Key) {
    exists i | 0 <= i < |entries| :: KeyOf(namespace, entries[i]) == key
  }

  /** What the entries ask for is what the body already is: the last data naming a ConfigMap; for a Secret the
      forced type and the last value written to each of its keys. */
  ghost predicate AlreadyHolds(namespace: string, entries: seq<Entry>, key: Key, body: Body) {
    match body
    case ConfigMapBody(data) => forall i: nat | IsLastNaming(namespace, entries, i, key) :: entries[i].data == data
    case SecretBody(secretType, data) =>
      && (IsNamed(namespace, entries, key) ==> secretType == RESOURCE_SET_SECRET)
      && forall i: nat, k | IsLastWriting(namespace, entries, i, key, k) :: k in data && data[k] == entries[i].data[k]
    case _ => true
  }

  /** Whatever the entries name is absent from the store or already as they ask. */
  ghost predicate AsksForNoChange(namespace: string, entries: seq<Entry>, objects: Objects) {
    forall key | key in objects :: AlreadyHolds(namespace, entries, key, objects[key].body)
  }

  /******* Bodies *******/

  lemma {:induction false} LastNaming(namespace: string, entries: seq<Entry>, key: Key) returns (i: nat)
    requires IsNamed(namespace, entries, key)
    ensures IsLastNaming(namespace, entries, i, key)
  {
    hide KeyOf;
    i := |entries| - 1;
    if KeyOf(namespace, entries[i]) != key {
      var init := entries[..i];
      var m :| 0 <= m < |entries| && KeyOf(namespace, entries[m]) == key;
      assert KeyOf(namespace, init[m]) == key;
      i := LastNaming(namespace, init, key);
    }
  }

  lemma {:induction false} LastWriting(namespace: string, entries: seq<Entry>, secret: Key, k: string) returns (i: nat)
    requires exists m | 0 <= m < |entries| :: WritesTo(namespace, entries[m], secret, k)
    ensures IsLastWriting(namespace, entries, i, secret, k)
  {
    hide WritesTo;
    i := |entries| - 1;
    if !WritesTo(namespace, entries[i], secret, k) {
      var init := entries[..i];
      var m :| 0 <= m < |entries| && WritesTo(namespace, entries[m], secret, k);
      assert WritesTo(namespace, init[m], secret, k);
      i := LastWriting(namespace, init, secret, k);
    }
  }

  lemma {:induction false} UnnamedStays(namespace: string, entries: seq<Entry>, key: Key, start: Option<Body>)
    requires !IsNamed(namespace, entries, key)
    ensures FinalBody(namespace, entries, key, start) == start
  {
    hide KeyOf, Upserted;
    if entries != [] {
      var init := entries[..|entries| - 1];
      assert forall j | 0 <= j < |init| :: init[j] == entries[j];
      assert KeyOf(namespace, entries[|entries| - 1]) != key;
      UnnamedStays(namespace, init, key, start);
    }
  }

  lemma ConfigMapStaysIff(namespace: string, entries: seq<Entry>, key: Key, data: Metadata)
    requires key.kind == ConfigMap
    ensures var body := ConfigMapBody(data);
            FinalBody(namespace, entries, key, Some(body)) == Some(body) <==>
            AlreadyHolds(namespace, entries, key, body)
  {
    hide FinalBody;
    if IsNamed(namespace, entries, key) {
      var i := LastNaming(namespace, entries, key);
      ConfigMapNamer(namespace, entries[i], key);
      LastConfigMapWins(namespace, entries, i, Some(ConfigMapBody(data)));
      assert forall j: nat | IsLastNaming(namespace, entries, j, key) :: j == i;
    } else {
      UnnamedStays(namespace, entries, key, Some(ConfigMapBody(data)));
    }
  }

  /** A ConfigMap's key is not that of an entry of kind Secret; any other kind of entry is read as a ConfigMap. */
  lemma ConfigMapNamer(namespace: string, entry: Entry, key: Key)
    requires key.kind == ConfigMap && KeyOf(namespace, entry) == key
    ensures entry.kind != SECRET_KIND
  {
  }

  lemma SecretStaysIff(namespace: string, entries: seq<Entry>, key: Key, secretType: string, data: Metadata)
    requires key.kind == Secret
    ensures var body := SecretBody(secretType, data);
            FinalBody(namespace, entries, key, Some(body)) == Some(body) <==>
            AlreadyHolds(namespace, entries, key, body)
  {
    hide FinalBody;
    var body := SecretBody(secretType, data);
    var end := FinalBody(namespace, entries, key, Some(body));
    SecretTypeIsForced(namespace, entries, key, Some(body));
    forall i: nat, k | IsLastWriting(namespace, entries, i, key, k)
      ensures ValueUnder(end, k) == Some(entries[i].data[k])
    {
      LastSecretKeyWins(namespace, entries, key, k, Some(body), i);
    }
    if AlreadyHolds(namespace, entries, key, body) {
      forall k ensures ValueUnder(end, k) == ValueUnder(Some(body), k) {
        if exists m | 0 <= m < |entries| :: WritesTo(namespace, entries[m], key, k) {
          var i := LastWriting(namespace, entries, key, k);
        } else {
          UnwrittenSecretKeyStays(namespace, entries, key, k, Some(body));
        }
      }
      SameValuesSameBody(end, body);
    }
  }

  /** A Secret is its type and its values. */
  lemma SameValuesSameBody(end: Option<Body>, body: Body)
    requires end.Some? && end.value.SecretBody? && body.SecretBody? && end.value.secretType == body.secretType
    requires forall k :: ValueUnder(end, k) == ValueUnder(Some(body), k)
    ensures end == Some(body)
  {
    var a, b := end.value.secretData, body.secretData;
    forall k ensures k in a <==> k in b {
      assert ValueUnder(end, k) == ValueUnder(Some(body), k);
    }
    forall k | k in a ensures a[k] == b[k] {
      assert ValueUnder(end, k) == ValueUnder(Some(body), k);
    }
    assert a == b;
  }

  lemma BodyStaysIff(namespace: string, entries: seq<Entry>, key: Key, body: Body)
    requires KindOf(body) == key.kind
    ensures FinalBody(namespace, entries, key, Some(body)) == Some(body) <==>
            AlreadyHolds(namespace, entries, key, body)
  {
    hide FinalBody;
    match body {
      case ConfigMapBody(data) => ConfigMapStaysIff(namespace, entries, key, data);
      case SecretBody(secretType, data) => SecretStaysIff(namespace, entries, key, secretType, data);
      case _ => UnnamedStays(namespace, entries, key, Some(body));
    }
  }

  /******* Stores *******/

  /** Every object that was there is there, as it was up to its resourceVersion. */
  ghost predicate LeavesExisting(before: Objects, after: Objects) {
    forall key | key in before :: key in after && Same(before[key], after[key])
  }

  predicate Same(before: Object, after: Object) {
    after == before.(rv := after.rv)
  }

  lemma {:induction false} UpsertsKeepIdentity(
    namespace: string, entries: seq<Entry>, objects: Objects, made: seq<Event>, key: Key)
    requires Fits(objects, made) && Upserts(namespace, entries, made) && key in objects
    ensures var after := Replay(objects, made); key in after && SameButBody(objects[key], after[key])
  {
    hide Upserted, KeyOf;
    if made != [] {
      var n := |made| - 1;
      assert forall i | 0 <= i < n :: made[..n][i] == made[i];
      UpsertsKeepIdentity(namespace, entries, objects, made[..n], key);
      assert IsUpsert(namespace, entries[n], made[n]);
      assert Lookup(Replay(objects, made[..n]), made[n].key) == made[n].before;
    }
  }

  lemma UpsertsLeaveExistingIff(namespace: string, entries: seq<Entry>, w: World, made: seq<Event>)
    requires Valid(w) && Fits(w.objects, made) && Upserts(namespace, entries, made)
    ensures LeavesExisting(w.objects, Replay(w.objects, made)) <==>
            AsksForNoChange(namespace, entries[..|made|], w.objects)
  {
    hide Fits, Upserts, Replay, FinalBody, AlreadyHolds;
    UpsertsLength(namespace, entries, made);
    var after := Replay(w.objects, made);
    forall key | key in w.objects
      ensures key in after
      ensures Same(w.objects[key], after[key]) <==>
              AlreadyHolds(namespace, entries[..|made|], key, w.objects[key].body)
    {
      KindOfStored(w, key);
      UpsertsKeepIdentity(namespace, entries, w.objects, made, key);
      ReplayedUpserts(namespace, entries, w.objects, made, key);
      BodyStaysIff(namespace, entries[..|made|], key, w.objects[key].body);
      assert BodyOf(Lookup(after, key)) == Some(after[key].body);
    }
  }

  /******* The call *******/

  /** How many of the inline entries a call that made these events has written. */
  function Written(opts: SetOptions, made: seq<Event>): (n: nat)
    ensures n <= |Inline(opts.resources)|
  {
    if |made| < |Inline(opts.resources)| then |made| else |Inline(opts.resources)|
  }

  lemma SetCreationLeavesExisting(opts: SetOptions, w: World, made: seq<Event>)
    requires Valid(w) && Fits(w.objects, made) && SetIsLast(opts, made)
    ensures LeavesExisting(w.objects, Replay(w.objects, made)) <==>
            LeavesExisting(w.objects, Replay(w.objects, made[..Written(opts, made)]))
    ensures Fits(w.objects, made[..Written(opts, made)])
    ensures Upserts(opts.namespace, Inline(opts.resources), made[..Written(opts, made)])
  {
    hide Valid, Inline, IsUpsert;
    var n := Written(opts, made);
    if n == |made| {
      assert made[..n] == made;
    } else {
      var earlier := Replay(w.objects, made[..n]);
      var key := Key(ClusterResourceSet, opts.namespace, opts.name);
      assert made[..|made| - 1] == made[..n];
      assert Lookup(earlier, key) == None;
      forall k | k in w.objects ensures k in earlier && Lookup(Replay(w.objects, made), k) == Lookup(earlier, k) {
        UpsertsKeepIdentity(opts.namespace, Inline(opts.resources), w.objects, made[..n], k);
      }
    }
  }

  /** However a call without other writers ends, it leaves every object that was there unchanged if and only if the
      entries it got to ask for nothing that is not already so. */
  lemma CreatingASetLeavesExistingIff(s: Sys, ctx: Context, opts: SetOptions)
    requires Valid(s.world) && Quiet(s.script)
    ensures var out := MakeSet(s, ctx, opts);
            LeavesExisting(s.world.objects, out.sys.world.objects) <==>
            AsksForNoChange(
              opts.namespace, Inline(opts.resources)[..Written(opts, Made(s, out.sys))], s.world.objects)
  {
    hide Valid, Quiet, Follows, Replay, ReplayIndex, Fits, MakeSet, SetIsLast, Inline, LeavesExisting, AsksForNoChange,
         OnlyOurs;
    var out := MakeSet(s, ctx, opts);
    ResourceSetIsLast(s, ctx, opts);
    FollowsGives(s, out.sys);
    QuietHistory(s, out.sys);
    var made := Made(s, out.sys);
    SetCreationLeavesExisting(opts, s.world, made);
    UpsertsLeaveExistingIff(opts.namespace, Inline(opts.resources), s.world, made[..Written(opts, made)]);
  }

  /** The inline entries before the first entry that stops the call: one of unknown kind, or one that has no name
      the server takes. */
  function EntriesReached(namespace: string, resources: seq<Entry>): seq<Entry> {
    if resources == [] || !KnownKind(resources[0]) then []
    else if resources[0].data == map[] then EntriesReached(namespace, resources[1..])
    else if !Nameable(KeyOf(namespace, resources[0])) then []
    else [resources[0]] + EntriesReached(namespace, resources[1..])
  }

  lemma {:induction false} ReachedIsPrefix(namespace: string, resources: seq<Entry>)
    ensures EntriesReached(namespace, resources) <= Inline(resources)
  {
    if resources != [] { ReachedIsPrefix(namespace, resources[1..]); }
  }

  lemma CalmUpsert(w: World, ctx: Context, namespace: string, entry: Entry)
    requires Valid(w) && !Done(ctx, w)
    ensures var out := Upsert(Sys(w, []), ctx, KeyOf(namespace, entry), entry);
            && Valid(out.sys.world)
            && !Done(ctx, out.sys.world)
            && out.sys.script == []
            && (out.err.None? <==> Nameable(KeyOf(namespace, entry)))
            && (!Nameable(KeyOf(namespace, entry)) ==> out.sys == Sys(w, []))
  {
    hide Valid, Follows, Upserted;
    CalmArrive(w);
    UpsertMade(Sys(w, []), ctx, namespace, entry);
    var key := KeyOf(namespace, entry);
    FollowsGives(Sys(w, []), Upsert(Sys(w, []), ctx, key, entry).sys);
    var made := Create(Sys(w, []), ctx, key, map[], Upserted(None, entry));
    CalmArrive(made.sys.world);
  }

  lemma {:induction false} CalmWrites(w: World, ctx: Context, namespace: string, resources: seq<Entry>)
    requires Valid(w) && !Done(ctx, w)
    ensures var out := WriteResources(Sys(w, []), ctx, namespace, resources);
            Extends(Sys(w, []), out.sys) && |Made(Sys(w, []), out.sys)| == |EntriesReached(namespace, resources)|
    decreases |resources|
  {
    hide Valid, Done, Upsert, Made, Extends, KnownKind, Upserts, Follows;
    var s := Sys(w, []);
    MadeNothing(s, s);
    if resources != [] && KnownKind(resources[0]) {
      if resources[0].data == map[] {
        CalmWrites(w, ctx, namespace, resources[1..]);
      } else {
        var one := Upsert(s, ctx, KeyOf(namespace, resources[0]), resources[0]);
        CalmUpsert(w, ctx, namespace, resources[0]);
        UpsertMade(s, ctx, namespace, resources[0]);
        if one.err.None? {
          assert one.sys == Sys(one.sys.world, []);
          CalmWrites(one.sys.world, ctx, namespace, resources[1..]);
          MadeAppend(s, one.sys, WriteResources(s, ctx, namespace, resources).sys);
        }
      }
    }
  }

  lemma {:induction false} DoneWrites(w: World, ctx: Context, namespace: string, resources: seq<Entry>)
    requires Done(ctx, w)
    ensures WriteResources(Sys(w, []), ctx, namespace, resources).sys == Sys(w, [])
    decreases |resources|
  {
    CalmArrive(w);
    if resources != [] { DoneWrites(w, ctx, namespace, resources[1..]); }
  }

  /** The entries a call without faults and other writers gets to write, read off the request. */
  function EntriesWritten(w: World, ctx: Context, opts: SetOptions): seq<Entry> {
    if Done(ctx, w) || !WellFormed(opts) then [] else EntriesReached(opts.namespace, opts.resources)
  }

  lemma WrittenAreReached(w: World, ctx: Context, opts: SetOptions)
    requires Valid(w)
    ensures EntriesWritten(w, ctx, opts) ==
            Inline(opts.resources)[..Written(opts, Made(Sys(w, []), MakeSet(Sys(w, []), ctx, opts).sys))]
  {
    hide Valid, WellFormed, WriteResources, Made, Extends, CreateSet, Inline, EntriesReached, Upserts, Follows;
    var s := Sys(w, []);
    var written := WriteResources(s, ctx, opts.namespace, opts.resources);
    var out := MakeSet(s, ctx, opts);
    MadeNothing(s, s);
    if Done(ctx, w) {
      DoneWrites(w, ctx, opts.namespace, opts.resources);
      DoneCreates(w, ctx, opts);
    } else if WellFormed(opts) {
      CalmWrites(w, ctx, opts.namespace, opts.resources);
      WriteResourcesMade(s, ctx, opts.namespace, opts.resources);
      ReachedIsPrefix(opts.namespace, opts.resources);
      if written.err.None? {
        CreateSetMade(written.sys, ctx, opts);
        MadeAppend(s, written.sys, out.sys);
      }
      assert Written(opts, Made(s, out.sys)) == |EntriesReached(opts.namespace, opts.resources)|;
      var reached := EntriesReached(opts.namespace, opts.resources);
      assert Inline(opts.resources)[..|reached|] == reached;
    }
  }

  lemma DoneCreates(w: World, ctx: Context, opts: SetOptions)
    requires Done(ctx, w)
    ensures CreateSet(Sys(w, []), ctx, opts).sys == Sys(w, [])
  {
    CalmArrive(w);
  }

  /** The additive hint of capi_create_cluster_resource_set: from every store and for every request, without faults
      and other writers, the call leaves every object that was there unchanged if and only if the entries it gets
      to name nothing that is there, or ask for what it already is. */
  lemma AdditiveIff(w: World, ctx: Context, opts: SetOptions)
    requires Valid(w)
    ensures LeavesExisting(w.objects, MakeSet(Sys(w, []), ctx, opts).sys.world.objects) <==>
            AsksForNoChange(opts.namespace, EntriesWritten(w, ctx, opts), w.objects)
  {
    hide Valid, LeavesExisting, AsksForNoChange, MakeSet, Made, EntriesWritten, Inline;
    CreatingASetLeavesExistingIff(Sys(w, []), ctx, opts);
    WrittenAreReached(w, ctx, opts);
  }

  /** So the hint is not true: whatever ConfigMap is there, a request that names it with other data overwrites it,
      also when the call then stops with an error at an entry of unknown kind. */
  lemma FailedCreationOverwrites(w: World, ctx: Context, opts: SetOptions, bad: Entry)
    requires Valid(w) && !Done(ctx, w) && WellFormed(opts) && !KnownKind(bad)
    requires |opts.resources| == 2 && opts.resources[1] == bad
    requires var entry := opts.resources[0];
             var key := KeyOf(opts.namespace, entry);
             && entry.kind == CONFIG_MAP_KIND
             && entry.data != map[]
             && key in w.objects
             && w.objects[key].body != ConfigMapBody(entry.data)
    ensures var out := MakeSet(Sys(w, []), ctx, opts);
            && out.err == Some(Invalid)
            && !LeavesExisting(w.objects, out.sys.world.objects)
  {
    hide Valid, Done, LeavesExisting, MakeSet;
    var entry := opts.resources[0];
    var key := KeyOf(opts.namespace, entry);
    assert |SECRET_KIND| != |CONFIG_MAP_KIND|;
    NamedIfStored(w, key);
    KindOfStored(w, key);
    AdditiveIff(w, ctx, opts);
    assert opts.resources[1..] == [bad] && [bad][0] == bad;
    assert EntriesReached(opts.namespace, [bad]) == [];
    assert EntriesWritten(w, ctx, opts) == [entry];
    assert IsLastNaming(opts.namespace, [entry], 0, key);
    assert !AlreadyHolds(opts.namespace, [entry], key, w.objects[key].body);
    StopsAtBad(w, ctx, opts, bad);
  }

  lemma StopsAtBad(w: World, ctx: Context, opts: SetOptions, bad: Entry)
    requires Valid(w) && !Done(ctx, w) && WellFormed(opts) && !KnownKind(bad)
    requires |opts.resources| == 2 && opts.resources[1] == bad
    requires KnownKind(opts.resources[0]) && opts.resources[0].data != map[]
    requires Nameable(KeyOf(opts.namespace, opts.resources[0]))
    ensures MakeSet(Sys(w, []), ctx, opts).err == Some(Invalid)
  {
    hide Valid, Done, WellFormed, Upsert, KnownKind;
    assert opts.resources[1..] == [bad] && [bad][0] == bad;
    CalmUpsert(w, ctx, opts.namespace, opts.resources[0]);
    var s := Sys(w, []);
    var one := Upsert(s, ctx, KeyOf(opts.namespace, opts.resources[0]), opts.resources[0]);
    assert WriteResources(one.sys, ctx, opts.namespace, [bad]) == Outcome(one.sys, Some(Invalid));
    assert WriteResources(s, ctx, opts.namespace, opts.resources).err == Some(Invalid);
  }
}
