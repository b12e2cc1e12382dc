/** What a drain's report says, and which pods its evictions reach (pkg/capi/drain.go,
    pkg/mcp/handlers/machine.go). */
module DrainReporting {
  import opened Wrappers
  import opened Policy
  import opened Store
  import opened Interleaving
  import opened Footprint
  import opened Changes
  import opened Capi
  import opened Gated
  import opened DrainPlanning
  import opened Drain
  import opened DrainSafety

  /******* The report *******/

  /** Evictions that account for exactly the pods named; only the last may be unanswered. */
  ghost predicate Accounts(evictions: seq<Event>, named: seq<Key>, err: Option<Error>) {
    && Answered(evictions) == named
    && forall i | 0 <= i < |evictions| ::
         && Honest(evictions[i])
         && (evictions[i].hit.Some? ==> evictions[i].pod in named || evictions[i].answer == Unanswered)
         && (evictions[i].answer == Unanswered ==> i == |evictions| - 1 && err == Some(Api(Unavailable)))
  }

  lemma {:induction false} AnsweredHas(events: seq<Event>, i: nat)
    requires i < |events| && events[i].Eviction? && events[i].answer == Accepted
    ensures events[i].pod in Answered(events)
  {
    if i < |events| - 1 { AnsweredHas(events[..|events| - 1], i); }
  }

  /** The eviction loop on its own. */
  lemma EvictionsAccount(s: Sys, ctx: Context, plan: seq<Item>)
    requires ctx.deadline.Some?
    ensures var evictions := EvictLoop(s, ctx, plan, [], 0);
            && Extends(s, evictions.sys)
            && Accounts(Made(s, evictions.sys), Keys(evictions.evicted), evictions.err)
            && evictions.err != Some(Invalid)
  {
    hide EvictLoop, Made, Extends;
    var evictions := EvictLoop(s, ctx, plan, [], 0);
    var made := Made(s, evictions.sys);
    EvictLoopReports(s, ctx, plan, [], 0);
    NeverInvalid(s, ctx, plan, [], 0);
    assert Keys([]) == [];
    assert Keys(evictions.evicted) == [] + Answered(made) == Answered(made);
    forall i | 0 <= i < |made| && made[i].hit.Some?
      ensures made[i].pod in Keys(evictions.evicted) || made[i].answer == Unanswered
    {
      if made[i].answer == Accepted { AnsweredHas(made, i); }
    }
  }

  lemma AccountsNothing(err: Option<Error>)
    ensures Accounts([], [], err)
  {
    assert Answered([]) == [];
  }

  /** A later error does not change an account without unanswered evictions. */
  lemma AccountsStay(evictions: seq<Event>, named: seq<Key>, err: Option<Error>)
    requires Accounts(evictions, named, None)
    ensures Accounts(evictions, named, err)
  {
  }

  /** No pod is listed twice, so none is planned twice. */
  lemma {:induction false} PlanIsDistinct(pods: seq<Item>, node: string, opts: NodeOptions, verdict: Verdict)
    requires ArePods(pods) && Distinct(Keys(pods))
    ensures Distinct(Keys(Pick(pods, node, opts, verdict)))
  {
    hide Judge;
    if pods != [] {
      var init, last := pods[..|pods| - 1], pods[|pods| - 1];
      assert Keys(init) == Keys(pods)[..|pods| - 1];
      PlanIsDistinct(init, node, opts, verdict);
      PickedAreJudged(init, node, opts, verdict);
      var earlier := Pick(init, node, opts, verdict);
      forall i | 0 <= i < |earlier| ensures earlier[i].key != last.key {
        var j :| 0 <= j < |init| && init[j] == earlier[i];
        assert Keys(pods)[j] != Keys(pods)[|pods| - 1];
      }
    }
  }

  lemma {:induction false} DistinctOccursOnce(items: seq<Item>, x: Item)
    requires Distinct(Keys(items))
    ensures multiset(items)[x] <= 1
  {
    if items != [] {
      var init, last := items[..|items| - 1], items[|items| - 1];
      assert items == init + [last];
      assert Keys(init) == Keys(items)[..|items| - 1];
      DistinctOccursOnce(init, x);
      if x == last {
        forall i | 0 <= i < |init| ensures init[i] != last {
          assert Keys(items)[i] != Keys(items)[|items| - 1];
        }
        assert x !in init;
      }
    }
  }

  lemma OccursTwice(items: seq<Item>, i: nat, j: nat)
    requires i < j < |items| && items[i] == items[j]
    ensures multiset(items)[items[i]] >= 2
  {
    var a, b := items[..j], items[j..];
    assert items == a + b;
    assert a[i] == items[i] && b[0] == items[i];
    assert multiset(items) == multiset(a) + multiset(b);
  }

  /** Of pods under distinct keys, each taken at most as often as it is there, none is named twice. */
  lemma NoneTwice(plan: seq<Item>, evicted: seq<Item>)
    requires Distinct(Keys(plan)) && multiset(evicted) <= multiset(plan)
    ensures Distinct(Keys(evicted))
  {
    forall i, j | 0 <= i < j < |evicted| ensures Keys(evicted)[i] != Keys(evicted)[j] {
      assert evicted[i] in multiset(evicted) && evicted[j] in multiset(evicted);
      assert evicted[i] in plan && evicted[j] in plan;
      var a :| 0 <= a < |plan| && plan[a] == evicted[i];
      var b :| 0 <= b < |plan| && plan[b] == evicted[j];
      if evicted[i].key == evicted[j].key {
        assert Keys(plan)[a] == Keys(plan)[b];
        assert a == b;
        OccursTwice(evicted, i, j);
        DistinctOccursOnce(plan, evicted[i]);
        assert false;
      }
    }
  }

  lemma NothingIsDistinct()
    ensures Distinct<Key>([])
  {
  }

  lemma EvictedAreDistinct(s: Sys, ctx: Context, plan: seq<Item>)
    requires ctx.deadline.Some? && Distinct(Keys(plan))
    ensures Distinct(Keys(EvictLoop(s, ctx, plan, [], 0).evicted))
  {
    hide EvictLoop;
    EvictLoopConserves(s, ctx, plan, [], 0);
    var out := EvictLoop(s, ctx, plan, [], 0);
    var none: seq<Item> := [];
    assert multiset(none) == multiset{};
    assert multiset(out.evicted) + multiset(out.left) == multiset(plan);
    NoneTwice(plan, out.evicted);
  }

  lemma ListedAreDistinct(s: Sys, ctx: Context, q: Query)
    requires Valid(s.world)
    ensures var listed := List(s, ctx, q); listed.result.Success? ==> Distinct(Keys(listed.result.value))
  {
    ListFollows(s, ctx, q);
    var w := Arrive(s).world;
    ItemsAreDistinct(w.objects, w.index, q);
  }

  lemma DrainCordonedAccounts(t: Sys, ctx: Context, node: string, opts: NodeOptions)
    requires Valid(t.world) && ctx.deadline.Some?
    ensures var out := DrainCordoned(t, ctx, node, opts);
            && Extends(t, out.sys)
            && out.result.Some?
            && out.result.value.nodeName == node
            && Accounts(Made(t, out.sys), out.result.value.evicted, out.err)
            && Distinct(out.result.value.evicted)
            && (out.err == Some(Invalid) ==> Made(t, out.sys) == [])
  {
    hide Valid, Made, Extends, EvictLoop, WaitLoop, Pick, Accounts, Items, Keys, Distinct;
    var listed := List(t, ctx, PodsOf(node));
    var out := DrainCordoned(t, ctx, node, opts);
    ArriveMade(t);
    AccountsNothing(out.err);
    NothingIsDistinct();
    ListedAreDistinct(t, ctx, PodsOf(node));
    if listed.result.Success? {
      ListedArePods(t, ctx, node);
      var plan := Pick(listed.result.value, node, opts, EvictIt);
      if Pick(listed.result.value, node, opts, Refuse) == [] {
        var evictions := EvictLoop(listed.sys, ctx, plan, [], 0);
        EvictionsAccount(listed.sys, ctx, plan);
        PlanIsDistinct(listed.result.value, node, opts, EvictIt);
        EvictedAreDistinct(listed.sys, ctx, plan);
        MadeAppend(t, listed.sys, evictions.sys);
        assert Made(t, evictions.sys) == [] + Made(listed.sys, evictions.sys) == Made(listed.sys, evictions.sys);
        if evictions.err.None? {
          WaitLoopMakes(evictions.sys, ctx, evictions.evicted, 0);
          MadeAppend(t, evictions.sys, out.sys);
          assert Made(t, out.sys) == Made(t, evictions.sys) + [] == Made(t, evictions.sys);
          NeverInvalidWait(evictions.sys, ctx, evictions.evicted, 0);
          AccountsStay(Made(t, out.sys), out.result.value.evicted, out.err);
        }
      }
    }
  }

  lemma {:induction false} NeverInvalid(s: Sys, ctx: Context, pending: seq<Item>, evicted: seq<Item>, rounds: nat)
    requires ctx.deadline.Some?
    ensures EvictLoop(s, ctx, pending, evicted, rounds).err != Some(Invalid)
    decreases TimeLeft(ctx, s.world)
  {
    var round := EvictRound(s, ctx, pending, evicted, []);
    NeverInvalidRound(s, ctx, pending, evicted, []);
    if round.err.None? && round.refused != [] {
      var wake := Select(round.sys, ctx);
      if wake.timer { NeverInvalid(wake.sys, ctx, round.refused, round.evicted, rounds + 1); }
    }
  }

  lemma NeverInvalidRound(s: Sys, ctx: Context, todo: seq<Item>, evicted: seq<Item>, refused: seq<Item>)
    ensures EvictRound(s, ctx, todo, evicted, refused).err in {None, Some(Api(Unavailable))}
    decreases |todo|
  {
  }

  lemma NeverInvalidWait(s: Sys, ctx: Context, pending: seq<Item>, rounds: nat)
    requires ctx.deadline.Some?
    ensures WaitLoop(s, ctx, pending, rounds).err != Some(Invalid)
    decreases TimeLeft(ctx, s.world)
  {
    var round := WaitRound(s, ctx, pending, []);
    NeverInvalidWaitRound(s, ctx, pending, []);
    if round.err.None? && round.remaining != [] {
      var wake := Select(round.sys, ctx);
      if wake.timer { NeverInvalidWait(wake.sys, ctx, round.remaining, rounds + 1); }
    }
  }

  lemma NeverInvalidWaitRound(s: Sys, ctx: Context, todo: seq<Item>, remaining: seq<Item>)
    ensures var err := WaitRound(s, ctx, todo, remaining).err; err.None? || err.value.Api?
    decreases |todo|
  {
  }

  lemma CordonFirstMade(s: Sys, p: WritePolicy, parent: Context, opts: NodeOptions)
    requires Valid(s.world)
    ensures var cordoned := CordonFirst(s, p, parent, opts);
            var made := Made(s, cordoned.sys);
            && Extends(s, cordoned.sys)
            && |made| <= 1
            && (made == [] ==> cordoned.result.Failure?)
            && (made != [] ==>
                  && IsGatedUpdate(p, made[0])
                  && made[0].key == Key(Node, "", made[0].key.name)
                  && made[0].after.value.body == NodeBody(true)
                  && (cordoned.result == Failure(Api(Unavailable)) || cordoned.result == Success(made[0].key.name)))
  {
    hide Valid, Follows, Made, Rewrite, Arrive, CheckUpdate;
    var named := NodeNameOf(s, parent, opts);
    NodeNameMade(s, parent, opts);
    MadeNothing(s, s);
    if named.result.Success? {
      var key := Key(Node, "", named.result.value);
      RewriteMade(named.sys, p, parent, key, SetUnschedulable(true));
      var t := Rewrite(named.sys, p, parent, key, SetUnschedulable(true)).sys;
      MadeAppend(s, named.sys, t);
      assert Made(s, t) == Made(named.sys, t);
    }
  }

  /** DrainNode's report, on every path. There is a result exactly when the cordon was confirmed; without one,
      this call changed the node only if the reply to that one write was lost. With one, this call's writes are
      the cordon followed by evictions; Evicted names exactly the pods accepted or already gone, none twice, and
      only an eviction whose own answer was lost can be missing from it. A refusal means no eviction was sent. */
  lemma DrainReportIsExact(s: Sys, p: WritePolicy, parent: Context, opts: NodeOptions)
    requires Valid(s.world)
    ensures var out := DrainAll(s, p, parent, opts);
            var made := Made(s, out.sys);
            && Extends(s, out.sys)
            && (out.result.None? ==>
                  && out.err.Some?
                  && |made| <= 1
                  && (made != [] ==>
                        && IsGatedUpdate(p, made[0])
                        && made[0].key.kind == Node
                        && out.err == Some(Api(Unavailable))))
            && (out.result.Some? ==>
                  && |made| > 0
                  && IsGatedUpdate(p, made[0])
                  && made[0].key == Key(Node, "", out.result.value.nodeName)
                  && made[0].after.value.body == NodeBody(true)
                  && Accounts(made[1..], out.result.value.evicted, out.err)
                  && Distinct(out.result.value.evicted)
                  && (out.err == Some(Invalid) ==> made[1..] == []))
  {
    hide Valid, Accounts, Follows, Made, Extends, DrainCordoned, CordonFirst, DrainContext, ManagedBy, Distinct;
    var cordoned := CordonFirst(s, p, parent, opts);
    CordonFirstMade(s, p, parent, opts);
    CordonFirstFollows(s, p, parent, opts);
    if cordoned.result.Success? {
      var t, node := cordoned.sys, cordoned.result.value;
      var ctx := DrainContext(parent, t.world, opts);
      var out := DrainCordoned(t, ctx, node, opts);
      DrainCordonedAccounts(t, ctx, node, opts);
      MadeAppend(s, t, out.sys);
      assert Made(s, out.sys)[0] == Made(s, t)[0] && Made(s, out.sys)[1..] == Made(t, out.sys);
    }
  }

  /** The request that cordons, if the name resolves: the Get of the node comes first. */
  function CordonRequest(s: Sys, parent: Context, opts: NodeOptions): Sys
    requires Valid(s.world)
  {
    Arrive(NodeNameOf(s, parent, opts).sys)
  }

  /** A call without a result left the node alone, except when its cordon was applied and the reply was lost: a
      call that wrote anything has a result if and only if the reply to its cordon arrived. */
  lemma ResultIffCordonAnswered(s: Sys, p: WritePolicy, parent: Context, opts: NodeOptions)
    requires Valid(s.world)
    ensures var out := DrainAll(s, p, parent, opts);
            && (Made(s, out.sys) == [] ==> out.result.None?)
            && (Made(s, out.sys) != [] ==>
                  && NodeNameOf(s, parent, opts).result.Success?
                  && (out.result.Some? <==> Head(CordonRequest(s, parent, opts)).fault == Delivered))
  {
    hide Valid, Follows, Made, Extends, Rewrite, DrainCordoned, DrainContext, Accounts, CheckUpdate, Arrive;
    DrainReportIsExact(s, p, parent, opts);
    CordonFirstMade(s, p, parent, opts);
    CordonFirstFollows(s, p, parent, opts);
    var cordoned := CordonFirst(s, p, parent, opts);
    if cordoned.result.Success? {
      DrainNames(cordoned.sys, DrainContext(parent, cordoned.sys.world, opts), cordoned.result.value, opts);
    }
    var named := NodeNameOf(s, parent, opts);
    NodeNameMade(s, parent, opts);
    if named.result.Success? {
      var key := Key(Node, "", named.result.value);
      var t := Rewrite(named.sys, p, parent, key, SetUnschedulable(true)).sys;
      RewriteMade(named.sys, p, parent, key, SetUnschedulable(true));
      MadeAppend(s, named.sys, t);
      assert Made(s, t) == Made(named.sys, t);
      if Made(named.sys, t) != [] {
        AppliedIsReportedIffAnswered(named.sys, p, parent, key, SetUnschedulable(true));
      }
    }
  }

  /** No result does not quite mean that this call left the node alone: for every node it may cordon, losing the
      one reply gives a node that is cordoned and a call without a result. */
  lemma LostReplyHidesTheCordon(w: World, p: WritePolicy, parent: Context, opts: NodeOptions)
    requires Valid(w) && !Done(parent, w) && opts.nodeName != "" && Key(Node, "", opts.nodeName) in w.objects
    requires var node := w.objects[Key(Node, "", opts.nodeName)]; CheckUpdate(p, node.labels, node.annotations).None?
    ensures var out := DrainAll(Sys(w, [QUIET, Turn([], LostReply, true, true)]), p, parent, opts);
            && out.result.None?
            && out.err == Some(Api(Unavailable))
            && Cordoned(out.sys.world, opts.nodeName)
  {
    hide Valid, CheckUpdate, Rewrite, DrainCordoned;
    var key := Key(Node, "", opts.nodeName);
    LostReplyHidesAWrite(w, p, parent, key, SetUnschedulable(true));
  }

  /******* Evictions go by name *******/

  /** An accepted eviction reaches the listed pod if and only if that pod still exists when the request
      arrives; otherwise the pod that took over its name is evicted. */
  lemma EvictionHitsThePlannedPodIffItStillExists(listing: World, s: Sys, ctx: Context, item: Item)
    requires Descends(listing, s) && ListedIn(listing, [item])
    requires Evict(s, ctx, item.key).answer == Accepted
    ensures var made := Made(s, Evict(s, ctx, item.key).sys);
            && |made| == 1
            && made[0].Eviction?
            && made[0].hit.Some?
            && (made[0].hit.value == item.state.uid <==> Exists(Arrive(s).world, item.state.uid))
  {
    EvictMade(s, ctx, item.key);
    ArriveFollows(s);
    DescendsFurther(listing, s, Arrive(s));
    assert [item][0] == item;
    var w := Arrive(s).world;
    if Exists(w, item.state.uid) {
      var k :| k in w.objects && w.objects[k].uid == item.state.uid;
      OnlyUnderItsKey(listing, w, item, k);
    }
  }

  /** Whatever pod was listed, if it is replaced under its name before its eviction arrives, its replacement is
      evicted instead, also when that one runs on another node. */
  lemma EvictionHitsTheReplacement(w: World, ctx: Context, item: Item, other: Object)
    requires Valid(w) && !Done(ctx, w) && ListedIn(w, [item]) && item.key.kind == Pod
    requires other.body.PodBody? && other.uid >= w.nextUid && !Cordoned(w, other.body.nodeName)
    ensures var replace := Turn([Remove(item.key), Put(item.key, other)], Delivered, true, true);
            var reply := Evict(Sys(w, [replace]), ctx, item.key);
            && reply.answer == Accepted
            && Made(Sys(w, [replace]), reply.sys) == [Eviction(item.key, Some(other.uid), Accepted)]
            && other.uid != item.state.uid
  {
    assert [item][0] == item;
    var steps := [Remove(item.key), Put(item.key, other)];
    var s := Sys(w, [Turn(steps, Delivered, true, true)]);
    var w1 := Take(w, steps[0]);
    var w2 := Take(w1, steps[1]);
    assert steps[1..] == [steps[1]] && steps[1..][1..] == [];
    assert Cordoned(w1, other.body.nodeName) == Cordoned(w, other.body.nodeName);
    assert TakeAll(w1, [steps[1]]) == TakeAll(w2, []) == w2;
    assert TakeAll(w, steps) == w2;
    assert w2.objects[item.key].uid == other.uid;
    EvictMade(s, ctx, item.key);
  }
}
