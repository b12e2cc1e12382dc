/** Creating a ClusterResourceSet: first its inline ConfigMaps and Secrets, one by one, then the set
    (pkg/capi/resourceset.go). These methods do not consult the write policy. */
module ResourceSets {
  import opened Wrappers
  import opened Policy
  import opened Store
  import opened Interleaving
  import opened Footprint
  import opened Capi

  const SECRET_KIND := "Secret"
  const CONFIG_MAP_KIND := "ConfigMap"
  const APPLY_ONCE := "ApplyOnce"
  const RECONCILE := "Reconcile"
  const RESOURCE_SET_SECRET := "addons.cluster.x-k8s.io/resource-set"

  datatype Entry = Entry(kind: string, name: string, data: Metadata)

  datatype SetOptions = SetOptions(
    namespace: string, name: string, selector: Metadata, strategy: string, resources: seq<Entry>)

  predicate KnownKind(entry: Entry) {
    entry.kind == SECRET_KIND || entry.kind == CONFIG_MAP_KIND
  }

  function KeyOf(namespace: string, entry: Entry): Key {
    Key(if entry.kind == SECRET_KIND then Secret else ConfigMap, namespace, entry.name)
  }

  /** What an entry makes of the body stored under its key: a ConfigMap's data is replaced, a Secret gets the
      forced type and the server overlays its string data on the stored data. */
  function Upserted(before: Option<Body>, entry: Entry): Body {
    if entry.kind == SECRET_KIND then
      SecretBody(RESOURCE_SET_SECRET,
                 if before.Some? && before.value.SecretBody? then before.value.secretData + entry.data else entry.data)
    else
      ConfigMapBody(entry.data)
  }

  /** Create, and on AlreadyExists Get and Update. */
  function Upsert(s: Sys, ctx: Context, key: Key, entry: Entry): Outcome {
    var made := Create(s, ctx, key, map[], Upserted(None, entry));
    if made.result != Failure(AlreadyExists) then Outcome(made.sys, ErrorOf(made.result))
    else
      var got := Get(made.sys, ctx, key);
      match got.result
      case Failure(error) => Outcome(got.sys, Some(Api(error)))
      case Success(existing) =>
        var put := Update(got.sys, ctx, key, existing.(body := Upserted(Some(existing.body), entry)));
        Outcome(put.sys, ErrorOf(put.result))
  }

  function WriteResources(s: Sys, ctx: Context, namespace: string, resources: seq<Entry>): Outcome
    decreases |resources|
  {
    if resources == [] then Outcome(s, None)
    else if !KnownKind(resources[0]) then Outcome(s, Some(Invalid))
    else if resources[0].data == map[] then WriteResources(s, ctx, namespace, resources[1..])
    else
      var one := Upsert(s, ctx, KeyOf(namespace, resources[0]), resources[0]);
      if one.err.Some? then one else WriteResources(one.sys, ctx, namespace, resources[1..])
  }

  function StrategyOf(opts: SetOptions): string {
    if opts.strategy == "" then APPLY_ONCE else opts.strategy
  }

  function References(resources: seq<Entry>): (refs: seq<(string, string)>)
    ensures |refs| == |resources|
    ensures forall i | 0 <= i < |refs| :: refs[i] == (resources[i].kind, resources[i].name)
  {
    seq(|resources|, i requires 0 <= i < |resources| => (resources[i].kind, resources[i].name))
  }

  function NewSet(opts: SetOptions): Body {
    ResourceSetBody(opts.selector, References(opts.resources), StrategyOf(opts))
  }

  predicate WellFormed(opts: SetOptions) {
    opts.selector != map[] && opts.resources != [] && StrategyOf(opts) in {APPLY_ONCE, RECONCILE}
  }

  /** The last request: the set itself. */
  function CreateSet(s: Sys, ctx: Context, opts: SetOptions): Reply<Object> {
    Create(s, ctx, Key(ClusterResourceSet, opts.namespace, opts.name), map[], NewSet(opts))
  }

  function MakeSet(s: Sys, ctx: Context, opts: SetOptions): Outcome {
    if !WellFormed(opts) then Outcome(s, Some(Invalid))
    else
      var written := WriteResources(s, ctx, opts.namespace, opts.resources);
      if written.err.Some? then written
      else
        var made := CreateSet(written.sys, ctx, opts);
        Outcome(made.sys, ErrorOf(made.result))
  }

  /** DeleteClusterResourceSet asks no policy. */
  function RemoveSet(s: Sys, ctx: Context, namespace: string, name: string): Outcome {
    var key := Key(ClusterResourceSet, namespace, name);
    var got := Get(s, ctx, key);
    if got.result.Failure? then Outcome(got.sys, Some(Api(got.result.error)))
    else
      var deleted := Delete(got.sys, ctx, key);
      Outcome(deleted.sys, ErrorOf(deleted.result))
  }

  /******* The methods *******/

  method CreateOrUpdateConfigMap(c: Client, ctx: Context, namespace: string, name: string, data: Metadata)
    returns (err: Option<Error>)
    requires c.Ready()
    modifies c
    ensures c.Ready()
    ensures Outcome(c.sys, err) ==
            Upsert(old(c.sys), ctx, Key(ConfigMap, namespace, name), Entry(CONFIG_MAP_KIND, name, data))
  {
    var key := Key(ConfigMap, namespace, name);
    CreateFollows(c.sys, ctx, key, map[], ConfigMapBody(data));
    var made := Create(c.sys, ctx, key, map[], ConfigMapBody(data));
    assert |SECRET_KIND| != |CONFIG_MAP_KIND|;
    c.sys := made.sys;
    if made.result.Success? { return None; }
    if made.result.error != AlreadyExists { return Some(Api(made.result.error)); }
    var got := c.Fetch(ctx, key);
    if got.Failure? { return Some(Api(got.error)); }
    var existing := got.value;
    existing := existing.(body := existing.body.(data := data));
    err := c.Store(ctx, key, existing);
  }

  method CreateOrUpdateSecret(c: Client, ctx: Context, namespace: string, name: string, data: Metadata)
    returns (err: Option<Error>)
    requires c.Ready()
    modifies c
    ensures c.Ready()
    ensures Outcome(c.sys, err) == Upsert(old(c.sys), ctx, Key(Secret, namespace, name), Entry(SECRET_KIND, name, data))
  {
    hide Valid;
    var key := Key(Secret, namespace, name);
    CreateKeepsValid(c.sys, ctx, key, SecretBody(RESOURCE_SET_SECRET, data));
    var made := Create(c.sys, ctx, key, map[], SecretBody(RESOURCE_SET_SECRET, data));
    c.sys := made.sys;
    if made.result.Success? { return None; }
    if made.result.error != AlreadyExists { return Some(Api(made.result.error)); }
    var got := c.Fetch(ctx, key);
    if got.Failure? { return Some(Api(got.error)); }
    var existing := got.value;
    existing := existing.(body := existing.body.(secretData := existing.body.secretData + data));
    existing := existing.(body := existing.body.(secretType := RESOURCE_SET_SECRET));
    assert existing.body == Upserted(Some(got.value.body), Entry(SECRET_KIND, name, data));
    err := c.Store(ctx, key, existing);
  }

  method CreateClusterResourceSet(c: Client, ctx: Context, opts: SetOptions) returns (err: Option<Error>)
    requires c.Ready()
    modifies c
    ensures c.Ready()
    ensures Outcome(c.sys, err) == MakeSet(old(c.sys), ctx, opts)
  {
    hide Valid;
    if opts.selector == map[] { return Some(Invalid); }
    if opts.resources == [] { return Some(Invalid); }
    var strategy := opts.strategy;
    if strategy == "" { strategy := APPLY_ONCE; }
    if strategy != APPLY_ONCE && strategy != RECONCILE { return Some(Invalid); }

    var refs: seq<(string, string)> := [];
    var i := 0;
    while i < |opts.resources|
      invariant c.Ready() && i <= |opts.resources|
      invariant refs == References(opts.resources[..i])
      invariant WriteResources(c.sys, ctx, opts.namespace, opts.resources[i..]) ==
                WriteResources(old(c.sys), ctx, opts.namespace, opts.resources)
    {
      var resource := opts.resources[i];
      assert opts.resources[i..][1..] == opts.resources[i + 1..];
      assert resource == Entry(resource.kind, resource.name, resource.data);
      if resource.kind == SECRET_KIND {
        if resource.data != map[] {
          err := CreateOrUpdateSecret(c, ctx, opts.namespace, resource.name, resource.data);
          if err.Some? { return err; }
        }
      } else if resource.kind == CONFIG_MAP_KIND {
        if resource.data != map[] {
          err := CreateOrUpdateConfigMap(c, ctx, opts.namespace, resource.name, resource.data);
          if err.Some? { return err; }
        }
      } else {
        return Some(Invalid);
      }
      refs := refs + [(resource.kind, resource.name)];
      i := i + 1;
    }
    assert opts.resources[..i] == opts.resources;
    var key := Key(ClusterResourceSet, opts.namespace, opts.name);
    CreateKeepsValid(c.sys, ctx, key, ResourceSetBody(opts.selector, refs, strategy));
    var made := Create(c.sys, ctx, key, map[], ResourceSetBody(opts.selector, refs, strategy));
    c.sys := made.sys;
    return ErrorOf(made.result);
  }

  lemma CreateKeepsValid(s: Sys, ctx: Context, key: Key, body: Body)
    requires Valid(s.world) && KindOf(body) == key.kind
    ensures Valid(Create(s, ctx, key, map[], body).sys.world)
  {
    CreateFollows(s, ctx, key, map[], body);
  }

  method DeleteClusterResourceSet(c: Client, ctx: Context, namespace: string, name: string) returns (err: Option<Error>)
    requires c.Ready()
    modifies c
    ensures c.Ready()
    ensures Outcome(c.sys, err) == RemoveSet(old(c.sys), ctx, namespace, name)
  {
    var key := Key(ClusterResourceSet, namespace, name);
    var got := c.Fetch(ctx, key);
    if got.Failure? { return Some(Api(got.error)); }
    DeleteFollows(c.sys, ctx, key);
    var deleted := Delete(c.sys, ctx, key);
    c.sys := deleted.sys;
    return ErrorOf(deleted.result);
  }

  /******* What is written *******/

  /** The entries that carry data, in request order. */
  function Inline(resources: seq<Entry>): seq<Entry> {
    if resources == [] then []
    else (if resources[0].data != map[] then [resources[0]] else []) + Inline(resources[1..])
  }

  function BodyOf(o: Option<Object>): Option<Body> {
    if o.Some? then Some(o.value.body) else None
  }

  /** Only the body and the resourceVersion may differ. */
  predicate SameButBody(before: Object, after: Object) {
    after == before.(rv := after.rv, body := after.body)
  }

  /** e stores under the entry's key what the entry makes of the body it replaces, and no other change. */
  ghost predicate IsUpsert(namespace: string, entry: Entry, e: Event) {
    && e.Write?
    && e.actor == Ours
    && e.key == KeyOf(namespace, entry)
    && e.after.Some?
    && e.after.value.body == Upserted(BodyOf(e.before), entry)
    && (e.before.Some? ==> SameButBody(e.before.value, e.after.value))
  }

  /** made upserts the first of the entries, in order. */
  ghost predicate Upserts(namespace: string, entries: seq<Entry>, made: seq<Event>) {
    |made| <= |entries| && forall i | 0 <= i < |made| :: IsUpsert(namespace, entries[i], made[i])
  }

  lemma UpsertsNothing(namespace: string, entries: seq<Entry>)
    ensures Upserts(namespace, entries, [])
  {
  }

  lemma UpsertsAppend(namespace: string, a: seq<Entry>, b: seq<Entry>, ma: seq<Event>, mb: seq<Event>)
    requires Upserts(namespace, a, ma) && Upserts(namespace, b, mb)
    requires |ma| == |a| || mb == []
    ensures Upserts(namespace, a + b, ma + mb) && |ma + mb| == |ma| + |mb|
  {
  }

  lemma UpsertsLength(namespace: string, entries: seq<Entry>, made: seq<Event>)
    requires Upserts(namespace, entries, made)
    ensures |made| <= |entries|
  {
  }

  /** The second half of an upsert: existing was just fetched from the world of s. */
  lemma ReplaceMade(s: Sys, ctx: Context, namespace: string, entry: Entry, existing: Object)
    requires Valid(s.world)
    requires Lookup(s.world.objects, KeyOf(namespace, entry)) == Some(existing)
    ensures var put := Update(s, ctx, KeyOf(namespace, entry), existing.(body := Upserted(Some(existing.body), entry)));
            && Follows(s, put.sys)
            && Extends(s, put.sys)
            && Upserts(namespace, [entry], Made(s, put.sys))
            && (put.result.Success? ==> |Made(s, put.sys)| == 1)
  {
    hide Valid, Later, Follows, Recorded, Upserts, Update, Made, Arrive, Extends;
    var key := KeyOf(namespace, entry);
    var changed := existing.(body := Upserted(Some(existing.body), entry));
    var made := Made(s, Update(s, ctx, key, changed).sys);
    UpdateMade(s, ctx, key, changed);
    UpdateFollows(s, ctx, key, changed);
    ArriveFollows(s);
    FollowsGives(s, Arrive(s));
    if made == [] {
      UpsertsNothing(namespace, [entry]);
    } else {
      var t := Arrive(s).world;
      SameVersionSameObject(s.world, t, key);
      ReplacementIsUpsert(namespace, entry, existing, t.rv);
      assert made == [Write(Ours, key, Some(existing), Some(changed.(rv := t.rv)))];
    }
  }

  lemma ReplacementIsUpsert(namespace: string, entry: Entry, existing: Object, rv: nat)
    ensures var after := existing.(rv := rv, body := Upserted(Some(existing.body), entry));
            Upserts(namespace, [entry], [Write(Ours, KeyOf(namespace, entry), Some(existing), Some(after))])
  {
  }

  lemma UpsertMade(s: Sys, ctx: Context, namespace: string, entry: Entry)
    requires Valid(s.world)
    ensures var out := Upsert(s, ctx, KeyOf(namespace, entry), entry);
            && Follows(s, out.sys)
            && Extends(s, out.sys)
            && Upserts(namespace, [entry], Made(s, out.sys))
            && (out.err.None? ==> |Made(s, out.sys)| == 1)
  {
    hide Valid, Follows, Made, Create, Update, Extends, Arrive;
    var key := KeyOf(namespace, entry);
    var made := Create(s, ctx, key, map[], Upserted(None, entry));
    CreateMade(s, ctx, key, map[], Upserted(None, entry));
    CreateFollows(s, ctx, key, map[], Upserted(None, entry));
    if made.result == Failure(AlreadyExists) {
      hide Upserts, Upserted;
      var t := made.sys;
      var got := Get(t, ctx, key);
      ArriveMade(t);
      GetFollows(t, ctx, key);
      FollowsGives(s, t);
      FollowsGives(t, got.sys);
      FollowsTransitive(s, t, got.sys);
      MadeAppend(s, t, got.sys);
      UpsertsNothing(namespace, [entry]);
      if got.result.Success? {
        var existing := got.result.value;
        ReplaceMade(got.sys, ctx, namespace, entry, existing);
        var put := Update(got.sys, ctx, key, existing.(body := Upserted(Some(existing.body), entry)));
        FollowsTransitive(s, got.sys, put.sys);
        MadeAppend(s, got.sys, put.sys);
        assert Made(s, put.sys) == Made(got.sys, put.sys);
      }
    }
  }

  lemma {:induction false} WriteResourcesMade(s: Sys, ctx: Context, namespace: string, resources: seq<Entry>)
    requires Valid(s.world)
    ensures var out := WriteResources(s, ctx, namespace, resources);
            && Follows(s, out.sys)
            && Extends(s, out.sys)
            && Upserts(namespace, Inline(resources), Made(s, out.sys))
            && (out.err.None? ==> |Made(s, out.sys)| == |Inline(resources)|)
    decreases |resources|
  {
    hide Valid, Follows, Upserts;
    var out := WriteResources(s, ctx, namespace, resources);
    FollowsReflexive(s);
    MadeNothing(s, s);
    UpsertsNothing(namespace, Inline(resources));
    if resources != [] && KnownKind(resources[0]) {
      if resources[0].data == map[] {
        WriteResourcesMade(s, ctx, namespace, resources[1..]);
        assert Inline(resources) == [] + Inline(resources[1..]) == Inline(resources[1..]);
      } else {
        var one := Upsert(s, ctx, KeyOf(namespace, resources[0]), resources[0]);
        UpsertMade(s, ctx, namespace, resources[0]);
        FollowsGives(s, one.sys);
        assert Inline(resources) == [resources[0]] + Inline(resources[1..]);
        if one.err.None? {
          WriteResourcesMade(one.sys, ctx, namespace, resources[1..]);
          FollowsTransitive(s, one.sys, out.sys);
          MadeAppend(s, one.sys, out.sys);
          UpsertsAppend(namespace, [resources[0]], Inline(resources[1..]), Made(s, one.sys), Made(one.sys, out.sys));
        } else {
          UpsertsNothing(namespace, Inline(resources[1..]));
          UpsertsAppend(namespace, [resources[0]], Inline(resources[1..]), Made(s, one.sys), []);
          assert Made(s, one.sys) + [] == Made(s, one.sys);
        }
      }
    }
  }

  /** The creation of the set, with the references in request order and without a strategy asked for ApplyOnce. */
  ghost predicate IsSetCreation(opts: SetOptions, e: Event) {
    && e.Write?
    && e.actor == Ours
    && e.key == Key(ClusterResourceSet, opts.namespace, opts.name)
    && e.before.None?
    && e.after.Some?
    && e.after.value.labels == e.after.value.annotations == map[]
    && e.after.value.body.ResourceSetBody?
    && e.after.value.body.selector == opts.selector
    && e.after.value.body.resources == References(opts.resources)
    && e.after.value.body.strategy == if opts.strategy == "" then "ApplyOnce" else opts.strategy
  }

  /** made upserts a prefix of the inline entries, in order, and creates the set only after all of them. */
  ghost predicate SetIsLast(opts: SetOptions, made: seq<Event>) {
    var inline := Inline(opts.resources);
    if |made| <= |inline| then Upserts(opts.namespace, inline, made)
    else
      && |made| == |inline| + 1
      && Upserts(opts.namespace, inline, made[..|inline|])
      && IsSetCreation(opts, made[|inline|])
  }

  lemma SetIsLastAppend(opts: SetOptions, a: seq<Event>, b: seq<Event>)
    requires Upserts(opts.namespace, Inline(opts.resources), a)
    requires b == [] || (|b| == 1 && |a| == |Inline(opts.resources)| && IsSetCreation(opts, b[0]))
    ensures SetIsLast(opts, a + b)
  {
    if b == [] { assert a + b == a; } else { assert (a + b)[..|a|] == a; }
  }

  /** Whoever else writes, a call writes a prefix of what it is asked for, the set last. Success means that it
      created the set, and a failure that it did not, unless the very last reply was lost. */
  lemma ResourceSetIsLast(s: Sys, ctx: Context, opts: SetOptions)
    requires Valid(s.world)
    ensures var out := MakeSet(s, ctx, opts);
            var made := Made(s, out.sys);
            && Follows(s, out.sys)
            && Extends(s, out.sys)
            && SetIsLast(opts, made)
            && (out.err.None? ==> |made| == |Inline(opts.resources)| + 1)
            && (|made| == |Inline(opts.resources)| + 1 ==> out.err in {None, Some(Api(Unavailable))})
  {
    hide Valid, Follows, Upserts, SetIsLast, CreateSet, WriteResources, Made, Inline, IsSetCreation;
    FollowsReflexive(s);
    MadeNothing(s, s);
    UpsertsNothing(opts.namespace, Inline(opts.resources));
    SetIsLastAppend(opts, [], []);
    if WellFormed(opts) {
      var written := WriteResources(s, ctx, opts.namespace, opts.resources);
      WriteResourcesMade(s, ctx, opts.namespace, opts.resources);
      UpsertsLength(opts.namespace, Inline(opts.resources), Made(s, written.sys));
      SetIsLastAppend(opts, Made(s, written.sys), []);
      assert Made(s, written.sys) + [] == Made(s, written.sys);
      if written.err.None? {
        CreateSetMade(written.sys, ctx, opts);
        var made := CreateSet(written.sys, ctx, opts);
        FollowsTransitive(s, written.sys, made.sys);
        MadeAppend(s, written.sys, made.sys);
        SetIsLastAppend(opts, Made(s, written.sys), Made(written.sys, made.sys));
      }
    }
  }

  lemma CreateSetMade(s: Sys, ctx: Context, opts: SetOptions)
    ensures var made := CreateSet(s, ctx, opts);
            && Follows(s, made.sys)
            && Extends(s, made.sys)
            && (Made(s, made.sys) == [] ==> made.result.Failure?)
            && (Made(s, made.sys) != [] ==>
                  && |Made(s, made.sys)| == 1
                  && IsSetCreation(opts, Made(s, made.sys)[0])
                  && (made.result.Success? || made.result == Failure(Unavailable)))
  {
    var key := Key(ClusterResourceSet, opts.namespace, opts.name);
    CreateMade(s, ctx, key, map[], NewSet(opts));
    CreateFollows(s, ctx, key, map[], NewSet(opts));
  }

  /** The body under key after the entries naming it were applied in order. */
  function FinalBody(namespace: string, entries: seq<Entry>, key: Key, start: Option<Body>): Option<Body> {
    if entries == [] then start
    else
      var earlier := FinalBody(namespace, entries[..|entries| - 1], key, start);
      var last := entries[|entries| - 1];
      if KeyOf(namespace, last) == key then Some(Upserted(earlier, last)) else earlier
  }

  lemma {:induction false} ReplayedUpserts(
    namespace: string, entries: seq<Entry>, objects: Objects, made: seq<Event>, key: Key)
    requires Fits(objects, made) && Upserts(namespace, entries, made)
    ensures BodyOf(Lookup(Replay(objects, made), key)) ==
            FinalBody(namespace, entries[..|made|], key, BodyOf(Lookup(objects, key)))
  {
    hide Upserted, KeyOf;
    if made != [] {
      var n := |made| - 1;
      assert forall i | 0 <= i < n :: made[..n][i] == made[i];
      ReplayedUpserts(namespace, entries, objects, made[..n], key);
      var upTo := entries[..n + 1];
      assert upTo[..|upTo| - 1] == entries[..n] && upTo[|upTo| - 1] == entries[n];
      assert IsUpsert(namespace, entries[n], made[n]);
      var earlier := Replay(objects, made[..n]);
      assert Lookup(earlier, made[n].key) == made[n].before;
      assert Lookup(Stored(earlier, made[n].key, made[n].after), key) ==
             if key == made[n].key then made[n].after else Lookup(earlier, key);
    }
  }

  /** Without other writers, a successful call leaves under every key what the inline entries naming it make of
      it, applied in request order: the data of the last ConfigMap entry; for a Secret the forced type and the
      written keys overlaid on older ones. Every key no entry names is as it was, apart from the set. */
  lemma ResourceSetContents(s: Sys, ctx: Context, opts: SetOptions, key: Key)
    requires Valid(s.world) && Quiet(s.script)
    requires MakeSet(s, ctx, opts).err.None?
    requires key != Key(ClusterResourceSet, opts.namespace, opts.name)
    ensures var out := MakeSet(s, ctx, opts);
            BodyOf(Lookup(out.sys.world.objects, key)) ==
            FinalBody(opts.namespace, Inline(opts.resources), key, BodyOf(Lookup(s.world.objects, key)))
  {
    hide Valid, Follows, Quiet, OnlyOurs;
    var out := MakeSet(s, ctx, opts);
    var n := |Inline(opts.resources)|;
    ResourceSetIsLast(s, ctx, opts);
    FollowsGives(s, out.sys);
    QuietHistory(s, out.sys);
    var made := Made(s, out.sys);
    assert made[..|made| - 1] == made[..n];
    ReplayedUpserts(opts.namespace, Inline(opts.resources), s.world.objects, made[..n], key);
    assert Inline(opts.resources)[..n] == Inline(opts.resources);
  }

  /** The last of the entries naming a ConfigMap decides its data. */
  lemma {:induction false} LastConfigMapWins(namespace: string, entries: seq<Entry>, i: nat, start: Option<Body>)
    requires i < |entries| && entries[i].kind != SECRET_KIND
    requires forall j | i < j < |entries| :: KeyOf(namespace, entries[j]) != KeyOf(namespace, entries[i])
    ensures FinalBody(namespace, entries, KeyOf(namespace, entries[i]), start) == Some(ConfigMapBody(entries[i].data))
  {
    if i < |entries| - 1 {
      assert entries[..|entries| - 1][i] == entries[i];
      LastConfigMapWins(namespace, entries[..|entries| - 1], i, start);
    }
  }

  /** The entry writes this key of this Secret. */
  predicate WritesTo(namespace: string, entry: Entry, secret: Key, k: string) {
    KeyOf(namespace, entry) == secret && k in entry.data
  }

  predicate IsSecretOrNone(body: Option<Body>) {
    body.Some? ==> body.value.SecretBody?
  }

  /** Every Secret an entry names ends up with the forced type. */
  lemma {:induction false} SecretTypeIsForced(namespace: string, entries: seq<Entry>, secret: Key, start: Option<Body>)
    requires secret.kind == Secret && IsSecretOrNone(start)
    ensures var end := FinalBody(namespace, entries, secret, start);
            && IsSecretOrNone(end)
            && (if exists i | 0 <= i < |entries| :: KeyOf(namespace, entries[i]) == secret
                then end.Some? && end.value.secretType == "addons.cluster.x-k8s.io/resource-set" else end == start)
  {
    if entries != [] {
      var init, last := entries[..|entries| - 1], entries[|entries| - 1];
      SecretTypeIsForced(namespace, init, secret, start);
      if KeyOf(namespace, last) != secret {
        assert forall i | 0 <= i < |init| :: init[i] == entries[i];
        assert (exists i | 0 <= i < |entries| :: KeyOf(namespace, entries[i]) == secret) <==>
               exists i | 0 <= i < |init| :: KeyOf(namespace, init[i]) == secret;
      }
    }
  }

  /** The value under a key of a Secret is that of the last entry that writes it. */
  lemma {:induction false} LastSecretKeyWins(
    namespace: string, entries: seq<Entry>, secret: Key, k: string, start: Option<Body>, i: nat)
    requires secret.kind == Secret && IsSecretOrNone(start)
    requires i < |entries| && WritesTo(namespace, entries[i], secret, k)
    requires forall j | i < j < |entries| :: !WritesTo(namespace, entries[j], secret, k)
    ensures var end := FinalBody(namespace, entries, secret, start);
            && end.Some?
            && end.value.SecretBody?
            && k in end.value.secretData
            && end.value.secretData[k] == entries[i].data[k]
  {
    var init := entries[..|entries| - 1];
    SecretTypeIsForced(namespace, init, secret, start);
    if i < |init| {
      assert forall j | 0 <= j < |init| :: init[j] == entries[j];
      LastSecretKeyWins(namespace, init, secret, k, start, i);
    }
  }

  function ValueUnder(body: Option<Body>, k: string): Option<string> {
    if body.Some? && body.value.SecretBody? && k in body.value.secretData then Some(body.value.secretData[k]) else None
  }

  /** A key no entry writes keeps its older value. */
  lemma {:induction false} UnwrittenSecretKeyStays(
    namespace: string, entries: seq<Entry>, secret: Key, k: string, start: Option<Body>)
    requires secret.kind == Secret && IsSecretOrNone(start)
    requires forall j | 0 <= j < |entries| :: !WritesTo(namespace, entries[j], secret, k)
    ensures ValueUnder(FinalBody(namespace, entries, secret, start), k) == ValueUnder(start, k)
  {
    if entries != [] {
      var init := entries[..|entries| - 1];
      assert forall j | 0 <= j < |init| :: init[j] == entries[j];
      assert !WritesTo(namespace, entries[|entries| - 1], secret, k);
      SecretTypeIsForced(namespace, init, secret, start);
      UnwrittenSecretKeyStays(namespace, init, secret, k, start);
    }
  }
}
