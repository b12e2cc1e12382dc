/** What every interleaving keeps: resourceVersions and uids are never reused, the clock never runs
    back, the history explains every change, and a cordoned node receives only exempt pods. */
module Interleaving {
  import opened Wrappers
  import opened Policy
  import opened Store

  lemma KindOfStored(w: World, key: Key)
    requires Valid(w) && key in w.objects
    ensures KindOf(w.objects[key].body) == key.kind
  {
  }

  lemma NamedIfStored(w: World, key: Key)
    requires Valid(w) && key in w.objects
    ensures Nameable(key)
  {
  }

  lemma IndexedIfStored(w: World, key: Key)
    requires Valid(w) && key in w.objects
    ensures key in w.index
  {
  }

  ghost predicate Distinct<T>(keys: seq<T>) {
    forall i, j | 0 <= i < j < |keys| :: keys[i] != keys[j]
  }

  lemma IndexIsDistinct(w: World)
    requires Valid(w)
    ensures Distinct(w.index)
  {
  }

  /******* Later: w' comes after w *******/

  ghost predicate KeyLater(w: World, w': World, k: Key)
    requires k in w'.objects
  {
    && (w'.objects[k].rv >= w.rv || (k in w.objects && w.objects[k] == w'.objects[k]))
    && (w'.objects[k].uid < w.nextUid ==>
          k in w.objects && w.objects[k].uid == w'.objects[k].uid && Continues(w.objects[k], w'.objects[k]))
  }

  ghost predicate Later(w: World, w': World) {
    && w.rv <= w'.rv
    && w.nextUid <= w'.nextUid
    && w.now <= w'.now
    && w.history <= w'.history
    && (forall k | k in w'.objects :: KeyLater(w, w', k))
  }

  lemma LaterReflexive(w: World)
    ensures Later(w, w)
  {
  }

  lemma LaterTransitive(w: World, w1: World, w2: World)
    requires Later(w, w1) && Later(w1, w2)
    ensures Later(w, w2)
  {
    forall k | k in w2.objects ensures KeyLater(w, w2, k) {
      assert KeyLater(w1, w2, k);
      if k in w1.objects { assert KeyLater(w, w1, k); }
    }
  }

  /** The optimistic-concurrency argument: a resourceVersion names one state of one object. */
  lemma SameVersionSameObject(w: World, w': World, k: Key)
    requires Valid(w) && Later(w, w')
    requires k in w.objects && k in w'.objects && w'.objects[k].rv == w.objects[k].rv
    ensures w'.objects[k] == w.objects[k]
  {
    assert KeyLater(w, w', k);
  }

  predicate Exists(w: World, uid: nat) {
    exists k :: k in w.objects && w.objects[k].uid == uid
  }

  /** Nothing gone comes back. */
  lemma GoneForEver(w: World, w': World, uid: nat)
    requires Later(w, w') && uid < w.nextUid && !Exists(w, uid)
    ensures !Exists(w', uid)
  {
    forall k | k in w'.objects ensures w'.objects[k].uid != uid {
      assert KeyLater(w, w', k);
    }
  }

  /******* The history explains the store *******/

  function Replay(objects: Objects, events: seq<Event>): Objects {
    if events == [] then objects
    else
      var e := events[|events| - 1];
      var earlier := Replay(objects, events[..|events| - 1]);
      if e.Write? then Stored(earlier, e.key, e.after) else earlier
  }

  /** Every write in events found the state it says it replaced. */
  ghost predicate Fits(objects: Objects, events: seq<Event>) {
    events == [] ||
    (var e := events[|events| - 1];
     var earlier := events[..|events| - 1];
     Fits(objects, earlier) && (e.Write? ==> Lookup(Replay(objects, earlier), e.key) == e.before))
  }

  function Since(w: World, w': World): seq<Event>
    requires |w.history| <= |w'.history|
  {
    w'.history[|w.history|..]
  }

  /** Lists return the keys in the order in which they were first stored. */
  function ReplayIndex(index: seq<Key>, events: seq<Event>): seq<Key> {
    if events == [] then index
    else
      var e := events[|events| - 1];
      var earlier := ReplayIndex(index, events[..|events| - 1]);
      if e.Write? && e.after.Some? && e.key !in earlier then earlier + [e.key] else earlier
  }

  ghost predicate Recorded(w: World, w': World) {
    && w.history <= w'.history
    && Fits(w.objects, Since(w, w'))
    && w'.objects == Replay(w.objects, Since(w, w'))
    && w'.index == ReplayIndex(w.index, Since(w, w'))
  }

  lemma {:induction false} ReplayAppend(objects: Objects, index: seq<Key>, a: seq<Event>, b: seq<Event>)
    ensures Replay(objects, a + b) == Replay(Replay(objects, a), b)
    ensures ReplayIndex(index, a + b) == ReplayIndex(ReplayIndex(index, a), b)
    ensures Fits(objects, a) && Fits(Replay(objects, a), b) ==> Fits(objects, a + b)
  {
    if b == [] {
      assert a + b == a;
    } else {
      var init := b[..|b| - 1];
      assert (a + b)[..|a + b| - 1] == a + init;
      ReplayAppend(objects, index, a, init);
    }
  }

  lemma RecordedTransitive(w: World, w1: World, w2: World)
    requires Recorded(w, w1) && Recorded(w1, w2)
    ensures Recorded(w, w2)
  {
    assert Since(w, w2) == Since(w, w1) + Since(w1, w2);
    ReplayAppend(w.objects, w.index, Since(w, w1), Since(w1, w2));
  }

  /** A property of one key that every write to it keeps holds at the end if it held at the start. */
  lemma {:induction false} KeyInvariant(p: Option<Object> -> bool, key: Key, objects: Objects, events: seq<Event>)
    requires Fits(objects, events)
    requires p(Lookup(objects, key))
    requires forall i | 0 <= i < |events| && events[i].Write? && events[i].key == key ::
               p(events[i].before) ==> p(events[i].after)
    ensures p(Lookup(Replay(objects, events), key))
  {
    if events != [] {
      var init := events[..|events| - 1];
      assert forall i | 0 <= i < |init| :: init[i] == events[i];
      KeyInvariant(p, key, objects, init);
    }
  }

  /** A state a list may return. */
  ghost predicate IsListed(objects: Objects, index: seq<Key>, q: Query, item: Item) {
    item.key in objects && objects[item.key] == item.state && Selects(q, item.key, item.state) && item.key in index
  }

  /** What a list returns: exactly the selected states of the indexed keys. */
  lemma {:induction false} ItemsAreStored(objects: Objects, index: seq<Key>, q: Query)
    ensures forall item :: item in Items(objects, index, q) <==> IsListed(objects, index, q, item)
  {
    if index != [] {
      ItemsAreStored(objects, index[1..], q);
      forall item ensures item in Items(objects, index, q) <==> IsListed(objects, index, q, item) {
        assert item in Items(objects, index[1..], q) <==> IsListed(objects, index[1..], q, item);
        assert item.key in index <==> item.key == index[0] || item.key in index[1..];
      }
    }
  }

  /** No key is listed twice. */
  lemma {:induction false} ItemsAreDistinct(objects: Objects, index: seq<Key>, q: Query)
    requires Distinct(index)
    ensures forall i, j | 0 <= i < j < |Items(objects, index, q)| ::
              Items(objects, index, q)[i].key != Items(objects, index, q)[j].key
  {
    if index != [] {
      var rest := Items(objects, index[1..], q);
      assert Distinct(index[1..]);
      assert index[0] !in index[1..];
      ItemsAreDistinct(objects, index[1..], q);
      ItemsAreStored(objects, index[1..], q);
      forall j | 0 <= j < |rest| ensures rest[j].key != index[0] {
        assert IsListed(objects, index[1..], q, rest[j]);
      }
    }
  }

  /******* One step, one turn *******/

  /** What may be stored under key: the next state of the object there, or a new object. */
  ghost predicate Storable(w: World, key: Key, after: Option<Object>) {
    after.Some? ==>
      && KindOf(after.value.body) == key.kind
      && Nameable(key)
      && (if key in w.objects then after.value.uid == w.objects[key].uid && Continues(w.objects[key], after.value)
          else after.value.uid >= w.nextUid)
  }

  lemma CommitValid(w: World, actor: Actor, key: Key, after: Option<Object>)
    requires Valid(w) && Storable(w, key, after)
    ensures Valid(Commit(w, actor, key, after))
  {
    var w' := Commit(w, actor, key, after);
    forall k | k in w'.objects
      ensures KindOf(w'.objects[k].body) == k.kind && Nameable(k) && w'.objects[k].rv < w'.rv
      ensures w'.objects[k].uid < w'.nextUid && k in w'.index
    {
      if k != key { assert w'.objects[k] == w.objects[k]; }
    }
    forall k, l | k in w'.objects && l in w'.objects && w'.objects[k].uid == w'.objects[l].uid ensures k == l {
      if k != key { assert w'.objects[k] == w.objects[k]; }
      if l != key { assert w'.objects[l] == w.objects[l]; }
    }
  }

  lemma CommitLater(w: World, actor: Actor, key: Key, after: Option<Object>)
    requires Valid(w) && Storable(w, key, after)
    ensures Later(w, Commit(w, actor, key, after))
  {
    var w' := Commit(w, actor, key, after);
    forall k | k in w'.objects ensures KeyLater(w, w', k) {
      if k != key { assert w'.objects[k] == w.objects[k]; }
    }
  }

  lemma CommitKeeps(w: World, actor: Actor, key: Key, after: Option<Object>)
    requires Valid(w) && Storable(w, key, after)
    ensures var w' := Commit(w, actor, key, after); Valid(w') && Later(w, w') && Recorded(w, w')
  {
    CommitValid(w, actor, key, after);
    CommitLater(w, actor, key, after);
    OneEvent(w, Commit(w, actor, key, after));
  }

  /** A history one event longer is replayed by that event. */
  lemma OneEvent(w: World, w': World)
    requires |w'.history| == |w.history| + 1 && w.history <= w'.history
    requires var e := w'.history[|w.history|];
             && (e.Write? ==> Lookup(w.objects, e.key) == e.before)
             && w'.objects == (if e.Write? then Stored(w.objects, e.key, e.after) else w.objects)
             && w'.index == (if e.Write? && e.after.Some? && e.key !in w.index then w.index + [e.key] else w.index)
    ensures Recorded(w, w')
  {
    var e := w'.history[|w.history|];
    var events := Since(w, w');
    assert events == [e] && events[..|events| - 1] == [];
    assert Replay(w.objects, []) == w.objects && Fits(w.objects, []) && ReplayIndex(w.index, []) == w.index;
  }

  lemma TakeKeeps(w: World, step: Step)
    requires Valid(w)
    ensures var w' := Take(w, step); Valid(w') && Later(w, w') && Recorded(w, w')
  {
    hide Valid, Later, Recorded;
    if Legal(w, step) && step.Put? {
      assert Storable(w, step.key, Some(step.state));
      CommitKeeps(w, Others, step.key, Some(step.state));
    } else if step.Remove? && step.key in w.objects {
      CommitKeeps(w, Others, step.key, None);
    } else {
      SameStore(w, Take(w, step));
    }
  }

  /** Only the clock or the cancellation moved. */
  lemma SameStore(w: World, w': World)
    requires Valid(w)
    requires w'.now >= w.now
    requires w' == w.(now := w'.now, cancelled := w'.cancelled)
    ensures Valid(w') && Later(w, w') && Recorded(w, w')
  {
    assert Since(w, w') == [];
  }

  lemma {:induction false} TakeAllKeeps(w: World, steps: seq<Step>)
    requires Valid(w)
    ensures var w' := TakeAll(w, steps); Valid(w') && Later(w, w') && Recorded(w, w')
    decreases |steps|
  {
    if steps == [] {
      SameStore(w, w);
    } else {
      var w1 := Take(w, steps[0]);
      TakeKeeps(w, steps[0]);
      TakeAllKeeps(w1, steps[1..]);
      LaterTransitive(w, w1, TakeAll(w1, steps[1..]));
      RecordedTransitive(w, w1, TakeAll(w1, steps[1..]));
    }
  }

  /******* Requests *******/

  /** An event this client caused. */
  predicate IsOurs(e: Event) {
    e.Eviction? || e.actor == Ours
  }

  ghost predicate OnlyOurs(w: World, w': World) {
    && w.history <= w'.history
    && forall i | |w.history| <= i < |w'.history| :: IsOurs(w'.history[i])
  }

  predicate QuietSteps(steps: seq<Step>) {
    forall i | 0 <= i < |steps| :: steps[i].Elapse? || steps[i].Cancel?
  }

  /** Nobody else writes: time passes and requests fail, no more. */
  ghost predicate Quiet(script: seq<Turn>) {
    forall i | 0 <= i < |script| :: QuietSteps(script[i].steps)
  }

  ghost predicate Follows(s: Sys, s': Sys) {
    && (Valid(s.world) ==> Valid(s'.world) && Later(s.world, s'.world) && Recorded(s.world, s'.world))
    && IsSuffix(s'.script, s.script)
    && (Quiet(s.script) ==> OnlyOurs(s.world, s'.world))
  }

  ghost predicate IsSuffix(t: seq<Turn>, s: seq<Turn>) {
    |t| <= |s| && t == s[|s| - |t|..]
  }

  lemma FollowsGives(s: Sys, s': Sys)
    requires Follows(s, s') && Valid(s.world)
    ensures Valid(s'.world) && Later(s.world, s'.world) && Recorded(s.world, s'.world)
    ensures Quiet(s.script) ==> OnlyOurs(s.world, s'.world) && Quiet(s'.script)
  {
  }

  lemma FollowsReflexive(s: Sys)
    ensures Follows(s, s)
  {
    assert Since(s.world, s.world) == [];
  }

  lemma FollowsTransitive(s: Sys, s1: Sys, s2: Sys)
    requires Follows(s, s1) && Follows(s1, s2)
    ensures Follows(s, s2)
  {
    if Valid(s.world) {
      LaterTransitive(s.world, s1.world, s2.world);
      RecordedTransitive(s.world, s1.world, s2.world);
    }
    if Quiet(s.script) {
      assert Quiet(s1.script);
      forall i | |s.world.history| <= i < |s2.world.history| ensures IsOurs(s2.world.history[i]) {
        if i < |s1.world.history| { assert s2.world.history[i] == s1.world.history[i]; }
      }
    }
  }

  lemma {:induction false} QuietTurn(w: World, steps: seq<Step>)
    requires QuietSteps(steps)
    ensures TakeAll(w, steps).history == w.history
    decreases |steps|
  {
    if steps != [] {
      assert Take(w, steps[0]).history == w.history;
      assert forall i | 0 <= i < |steps| - 1 :: steps[1..][i] == steps[i + 1];
      QuietTurn(Take(w, steps[0]), steps[1..]);
    }
  }

  lemma ArriveFollows(s: Sys)
    ensures Follows(s, Arrive(s))
  {
    if Valid(s.world) { TakeAllKeeps(s.world, Head(s).steps); }
    if Quiet(s.script) { QuietTurn(s.world, Head(s).steps); }
  }

  lemma GetFollows(s: Sys, ctx: Context, key: Key)
    ensures Follows(s, Get(s, ctx, key).sys)
  {
    ArriveFollows(s);
  }

  lemma ListFollows(s: Sys, ctx: Context, q: Query)
    ensures Follows(s, List(s, ctx, q).sys)
  {
    ArriveFollows(s);
  }

  lemma ListKeepsValid(s: Sys, ctx: Context, q: Query)
    requires Valid(s.world)
    ensures Valid(List(s, ctx, q).sys.world)
  {
    ListFollows(s, ctx, q);
  }

  lemma CommitFollows(s: Sys, t: Sys, key: Key, after: Option<Object>)
    requires Follows(s, t)
    requires Valid(s.world) ==> Storable(t.world, key, after)
    ensures Follows(s, t.(world := Commit(t.world, Ours, key, after)))
  {
    if Valid(s.world) {
      CommitKeeps(t.world, Ours, key, after);
      LaterTransitive(s.world, t.world, Commit(t.world, Ours, key, after));
      RecordedTransitive(s.world, t.world, Commit(t.world, Ours, key, after));
    }
  }

  lemma UpdateFollows(s: Sys, ctx: Context, key: Key, o: Object)
    requires KindOf(o.body) == key.kind != Pod
    ensures Follows(s, Update(s, ctx, key, o).sys)
  {
    ArriveFollows(s);
    var t := Arrive(s);
    if && Reaches(ctx, s)
       && key in t.world.objects
       && t.world.objects[key].rv == o.rv
       && t.world.objects[key].uid == o.uid
    {
      CommitFollows(s, t, key, Some(o));
    }
  }

  lemma CreateFollows(s: Sys, ctx: Context, key: Key, labels: Metadata, body: Body)
    requires KindOf(body) == key.kind
    ensures Follows(s, Create(s, ctx, key, labels, body).sys)
  {
    ArriveFollows(s);
    var t := Arrive(s);
    if Reaches(ctx, s) && Nameable(key) && key !in t.world.objects {
      CommitFollows(s, t, key, Some(Object(t.world.nextUid, t.world.rv, labels, map[], body)));
    }
  }

  lemma DeleteFollows(s: Sys, ctx: Context, key: Key)
    ensures Follows(s, Delete(s, ctx, key).sys)
  {
    ArriveFollows(s);
    var t := Arrive(s);
    if Reaches(ctx, s) && key in t.world.objects {
      CommitFollows(s, t, key, None);
    }
  }

  lemma EvictFollows(s: Sys, ctx: Context, key: Key)
    ensures Follows(s, Evict(s, ctx, key).sys)
  {
    ArriveFollows(s);
    var t := Arrive(s);
    var u := Evict(s, ctx, key).sys;
    if u != t {
      OneEvent(t.world, u.world);
      assert Follows(t, u);
      FollowsTransitive(s, t, u);
    }
  }

  lemma ClockFollows(s: Sys, s': Sys)
    requires s'.world.now >= s.world.now
    requires s' == s.(world := s.world.(now := s'.world.now, cancelled := s'.world.cancelled))
    ensures Follows(s, s')
  {
    if Valid(s.world) { SameStore(s.world, s'.world); }
  }

  lemma SelectFollows(s: Sys, ctx: Context)
    ensures Follows(s, Select(s, ctx).sys)
  {
    hide Follows;
    ArriveFollows(s);
    ClockFollows(Arrive(s), Select(s, ctx).sys);
    FollowsTransitive(s, Arrive(s), Select(s, ctx).sys);
  }

  lemma QuietArrive(s: Sys)
    requires Valid(s.world) && Quiet(s.script)
    ensures Arrive(s).world.objects == s.world.objects && Arrive(s).world.index == s.world.index
  {
    ArriveFollows(s);
    QuietTurn(s.world, Head(s).steps);
    assert Since(s.world, Arrive(s).world) == [];
  }

  /** The objects without their resourceVersions. */
  function Content(objects: Objects): Objects {
    map k | k in objects :: objects[k].(rv := 0)
  }

  lemma CalmArrive(w: World)
    ensures Arrive(Sys(w, [])) == Sys(w, [])
  {
  }

  /******* Worlds that came from a listing *******/

  /** The items are states of the store w. */
  ghost predicate ListedIn(w: World, items: seq<Item>) {
    forall i | 0 <= i < |items| :: items[i].key in w.objects && w.objects[items[i].key] == items[i].state
  }

  /** origin is an earlier world the pods were listed from. */
  ghost predicate Descends(origin: World, s: Sys) {
    Valid(origin) && Valid(s.world) && Later(origin, s.world)
  }

  lemma DescendsGives(origin: World, s: Sys)
    requires Descends(origin, s)
    ensures Valid(origin) && Valid(s.world) && Later(origin, s.world)
  {
  }

  lemma DescendsFurther(origin: World, s: Sys, t: Sys)
    requires Descends(origin, s) && Follows(s, t)
    ensures Descends(origin, t)
  {
    LaterTransitive(origin, s.world, t.world);
  }

  /******* Cordoned nodes *******/

  predicate Uncordons(step: Step, node: string) {
    match step
    case Put(key, o) => key == Key(Node, "", node) && !(o.body.NodeBody? && o.body.unschedulable)
    case Remove(key) => key == Key(Node, "", node)
    case _ => false
  }

  predicate KeepsCordoned(steps: seq<Step>, node: string) {
    forall i | 0 <= i < |steps| :: !Uncordons(steps[i], node)
  }

  /** The node is cordoned and nobody else will uncordon or remove it. */
  ghost predicate Undisturbed(s: Sys, node: string) {
    Cordoned(s.world, node) && forall i | 0 <= i < |s.script| :: KeepsCordoned(s.script[i].steps, node)
  }

  predicate IsExemptBinding(e: Event, uid: nat, node: string) {
    && e.Write?
    && e.after.Some?
    && e.after.value.uid == uid
    && OnNode(e.after.value, node)
    && Exempt(e.after.value)
    && !(e.before.Some? && OnNode(e.before.value, node))
  }

  /** Between w and w' the pod was bound to the node, and was a DaemonSet or mirror pod when it was. */
  ghost predicate BoundAsExempt(w: World, w': World, uid: nat, node: string) {
    exists i | |w.history| <= i < |w'.history| :: IsExemptBinding(w'.history[i], uid, node)
  }

  ghost predicate Stayed(w: World, w': World, k: Key, node: string)
    requires k in w'.objects
  {
    k in w.objects && w.objects[k].uid == w'.objects[k].uid && OnNode(w.objects[k], node)
  }

  /** The pods on the node were there before or arrived as exempt pods. */
  ghost predicate Arrivals(w: World, w': World, node: string) {
    && w.history <= w'.history
    && forall k | k in w'.objects && OnNode(w'.objects[k], node) ::
         Stayed(w, w', k, node) || BoundAsExempt(w, w', w'.objects[k].uid, node)
  }

  lemma ArrivalsTransitive(w: World, w1: World, w2: World, node: string)
    requires Arrivals(w, w1, node) && Arrivals(w1, w2, node)
    ensures Arrivals(w, w2, node)
  {
    forall k | k in w2.objects && OnNode(w2.objects[k], node)
      ensures Stayed(w, w2, k, node) || BoundAsExempt(w, w2, w2.objects[k].uid, node)
    {
      var uid := w2.objects[k].uid;
      if BoundAsExempt(w1, w2, uid, node) {
        var i :| |w1.history| <= i < |w2.history| && IsExemptBinding(w2.history[i], uid, node);
        assert |w.history| <= i;
      } else if BoundAsExempt(w, w1, uid, node) {
        var i :| |w.history| <= i < |w1.history| && IsExemptBinding(w1.history[i], uid, node);
        assert w2.history[i] == w1.history[i];
      } else {
        assert Stayed(w1, w2, k, node) && Stayed(w, w1, k, node);
      }
    }
  }

  /** A legal step that binds a pod to a cordoned node binds an exempt pod. */
  lemma PutBindsExempt(w: World, key: Key, o: Object, node: string)
    requires Legal(w, Put(key, o)) && node != "" && Cordoned(w, node)
    requires OnNode(o, node) && !(key in w.objects && OnNode(w.objects[key], node))
    ensures IsExemptBinding(Write(Others, key, Lookup(w.objects, key), Some(o.(rv := w.rv))), o.uid, node)
  {
    assert BindsToCordoned(w, key, o);
  }

  lemma TakeArrivals(w: World, step: Step, node: string)
    requires Valid(w) && node != "" && Cordoned(w, node) && !Uncordons(step, node)
    ensures Cordoned(Take(w, step), node) && Arrivals(w, Take(w, step), node)
  {
    hide Valid, IsExemptBinding, Exempt;
    var w' := Take(w, step);
    forall k | k in w'.objects && OnNode(w'.objects[k], node)
      ensures Stayed(w, w', k, node) || BoundAsExempt(w, w', w'.objects[k].uid, node)
    {
      if step.Put? && k == step.key && Legal(w, step) && !Stayed(w, w', k, node) {
        PutBindsExempt(w, k, step.state, node);
        assert IsExemptBinding(w'.history[|w.history|], w'.objects[k].uid, node);
      }
    }
  }

  lemma {:induction false} TakeAllArrivals(w: World, steps: seq<Step>, node: string)
    requires Valid(w) && node != "" && Cordoned(w, node) && KeepsCordoned(steps, node)
    ensures Cordoned(TakeAll(w, steps), node) && Arrivals(w, TakeAll(w, steps), node)
    decreases |steps|
  {
    if steps != [] {
      assert !Uncordons(steps[0], node);
      TakeArrivals(w, steps[0], node);
      TakeKeeps(w, steps[0]);
      assert forall i | 0 <= i < |steps| - 1 :: steps[1..][i] == steps[i + 1];
      TakeAllArrivals(Take(w, steps[0]), steps[1..], node);
      ArrivalsTransitive(w, Take(w, steps[0]), TakeAll(w, steps), node);
    }
  }

  /** s' comes after s by requests that write no node: reads, evictions and waits. */
  ghost predicate Holds(s: Sys, s': Sys, node: string) {
    Valid(s.world) && node != "" && Undisturbed(s, node) ==>
      Undisturbed(s', node) && Arrivals(s.world, s'.world, node)
  }

  lemma HoldsTransitive(s: Sys, s1: Sys, s2: Sys, node: string)
    requires Follows(s, s1) && Holds(s, s1, node) && Holds(s1, s2, node)
    ensures Holds(s, s2, node)
  {
    if Valid(s.world) && node != "" && Undisturbed(s, node) {
      ArrivalsTransitive(s.world, s1.world, s2.world, node);
    }
  }

  lemma ArriveHolds(s: Sys, node: string)
    ensures Holds(s, Arrive(s), node)
  {
    if Valid(s.world) && node != "" && Undisturbed(s, node) {
      TakeAllArrivals(s.world, Head(s).steps, node);
      assert forall i | 0 <= i < |Arrive(s).script| :: Arrive(s).script[i] == s.script[i + 1];
    }
  }

  lemma EvictHolds(s: Sys, ctx: Context, key: Key, node: string)
    ensures Holds(s, Evict(s, ctx, key).sys, node)
  {
    ArriveHolds(s, node);
    ArriveFollows(s);
    var t, u := Arrive(s), Evict(s, ctx, key).sys;
    assert Holds(t, u, node) by {
      assert forall k | k in u.world.objects && OnNode(u.world.objects[k], node) :: Stayed(t.world, u.world, k, node);
    }
    HoldsTransitive(s, t, u, node);
  }

  lemma SelectHolds(s: Sys, ctx: Context, node: string)
    ensures Holds(s, Select(s, ctx).sys, node)
  {
    ArriveHolds(s, node);
    ArriveFollows(s);
    var t, u := Arrive(s), Select(s, ctx).sys;
    assert Holds(t, u, node) by {
      assert forall k | k in u.world.objects && OnNode(u.world.objects[k], node) :: Stayed(t.world, u.world, k, node);
    }
    HoldsTransitive(s, t, u, node);
  }

  /** Follows and Holds together: what every stretch of reads, evictions and waits keeps. */
  ghost predicate Moves(s: Sys, s': Sys, node: string) {
    Follows(s, s') && Holds(s, s', node)
  }

  lemma MovesReflexive(s: Sys, node: string)
    ensures Moves(s, s, node)
  {
    FollowsReflexive(s);
  }

  lemma MovesTransitive(s: Sys, s1: Sys, s2: Sys, node: string)
    requires Moves(s, s1, node) && Moves(s1, s2, node)
    ensures Moves(s, s2, node)
  {
    FollowsTransitive(s, s1, s2);
    HoldsTransitive(s, s1, s2, node);
  }

  lemma ArriveMoves(s: Sys, node: string)
    ensures Moves(s, Arrive(s), node)
  {
    ArriveFollows(s);
    ArriveHolds(s, node);
  }

  lemma EvictMoves(s: Sys, ctx: Context, key: Key, node: string)
    ensures Moves(s, Evict(s, ctx, key).sys, node)
  {
    EvictFollows(s, ctx, key);
    EvictHolds(s, ctx, key, node);
  }

  lemma SelectMoves(s: Sys, ctx: Context, node: string)
    ensures Moves(s, Select(s, ctx).sys, node)
  {
    SelectFollows(s, ctx);
    SelectHolds(s, ctx, node);
  }
}
