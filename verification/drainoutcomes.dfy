/** How a drain ends: when it refuses, when it errs, and when it succeeds (pkg/capi/drain.go). */
module DrainOutcomes {
  import opened Wrappers
  import opened Policy
  import opened Store
  import opened Interleaving
  import opened Footprint
  import opened Capi
  import opened DrainPlanning
  import opened Drain
  import opened DrainSafety
  import opened DrainReporting
  import opened Outcomes

  /******* The plan in terms of the store *******/

  predicate MustRefuseAt(w: World, node: string, k: Key, opts: NodeOptions) {
    k in w.objects && OnNode(w.objects[k], node) && MustRefuse(w.objects[k], opts)
  }

  predicate MayStayAt(w: World, node: string, k: Key, opts: NodeOptions) {
    k in w.objects && OnNode(w.objects[k], node) && MayStay(w.objects[k], opts)
  }

  predicate MayGoAt(w: World, node: string, k: Key, opts: NodeOptions) {
    k in w.objects && OnNode(w.objects[k], node) && MayGo(w.objects[k], opts)
  }

  predicate Names(items: seq<Item>, k: Key) {
    exists i | 0 <= i < |items| :: items[i].key == k
  }

  /** What was listed of one key. */
  lemma ListedOrNot(t: Sys, ctx: Context, node: string, k: Key)
    requires Valid(t.world) && List(t, ctx, PodsOf(node)).result.Success?
    ensures var pods := List(t, ctx, PodsOf(node)).result.value;
            && (forall i | 0 <= i < |pods| && pods[i].key == k ::
                  k in Listing(t).objects && pods[i].state == Listing(t).objects[k])
            && (k in Listing(t).objects && OnNode(Listing(t).objects[k], node) ==>
                  Item(k, Listing(t).objects[k]) in pods)
  {
    hide Valid, Selects;
    PlanFromListing(t, ctx, node, NodeOptions("", "", "", false, false, false, 0, false));
    var w := Listing(t);
    ItemsAreStored(w.objects, w.index, PodsOf(node));
    var pods := List(t, ctx, PodsOf(node)).result.value;
    forall i | 0 <= i < |pods| && pods[i].key == k ensures k in w.objects && pods[i].state == w.objects[k] {
      assert IsListed(w.objects, w.index, PodsOf(node), pods[i]);
    }
  }

  /** Each class of the plan holds exactly the stored pods of the node that belong there by their own fields. */
  lemma PlanOfTheStore(t: Sys, ctx: Context, node: string, opts: NodeOptions, k: Key)
    requires Valid(t.world) && List(t, ctx, PodsOf(node)).result.Success?
    requires ArePods(List(t, ctx, PodsOf(node)).result.value)
    ensures var pods := List(t, ctx, PodsOf(node)).result.value;
            && (Names(Pick(pods, node, opts, Refuse), k) <==> MustRefuseAt(Listing(t), node, k, opts))
            && (Names(Pick(pods, node, opts, Leave), k) <==> MayStayAt(Listing(t), node, k, opts))
            && (Names(Pick(pods, node, opts, EvictIt), k) <==> MayGoAt(Listing(t), node, k, opts))
  {
    hide Valid, MustRefuse, MayStay, MayGo, List;
    PlanOfOneClass(t, ctx, node, opts, k, Refuse);
    PlanOfOneClass(t, ctx, node, opts, k, Leave);
    PlanOfOneClass(t, ctx, node, opts, k, EvictIt);
  }

  /** The pods of one verdict, by their own fields. */
  predicate Deserves(pod: Object, opts: NodeOptions, verdict: Verdict)
    requires pod.body.PodBody?
  {
    match verdict
    case Refuse => MustRefuse(pod, opts)
    case Leave => MayStay(pod, opts)
    case EvictIt => MayGo(pod, opts)
    case Elsewhere => false
  }

  lemma PlanOfOneClass(t: Sys, ctx: Context, node: string, opts: NodeOptions, k: Key, verdict: Verdict)
    requires Valid(t.world) && List(t, ctx, PodsOf(node)).result.Success? && verdict != Elsewhere
    requires ArePods(List(t, ctx, PodsOf(node)).result.value)
    ensures var pods := List(t, ctx, PodsOf(node)).result.value;
            var w := Listing(t);
            Names(Pick(pods, node, opts, verdict), k) <==>
            k in w.objects && OnNode(w.objects[k], node) && Deserves(w.objects[k], opts, verdict)
  {
    hide Valid, MustRefuse, MayStay, MayGo, List, Judge;
    ListedOrNot(t, ctx, node, k);
    var pods := List(t, ctx, PodsOf(node)).result.value;
    var chosen := Pick(pods, node, opts, verdict);
    var w := Listing(t);
    PickedAreJudged(pods, node, opts, verdict);
    if Names(chosen, k) {
      var i :| 0 <= i < |chosen| && chosen[i].key == k;
      assert chosen[i] in pods;
      var j :| 0 <= j < |pods| && pods[j] == chosen[i];
      PlanSortsByTheirFields(pods, node, opts, chosen[i]);
    }
    if k in w.objects && OnNode(w.objects[k], node) {
      var item := Item(k, w.objects[k]);
      PlanSortsByTheirFields(pods, node, opts, item);
      if item in chosen {
        var i :| 0 <= i < |chosen| && chosen[i] == item;
      }
    }
  }

  /** Whoever else writes, the drained node is the one the options name. */
  lemma DrainIsOfTheNode(s: Sys, p: WritePolicy, parent: Context, opts: NodeOptions)
    requires Valid(s.world)
    ensures var out := DrainAll(s, p, parent, opts);
            out.result.Some? ==> IsTheNode(Arrive(s).world, opts, out.result.value.nodeName)
  {
    hide Valid, Follows, DrainCordoned, DrainContext, IsTheNode, Rewrite, NodeNameOf;
    NodeNameIsTheNode(s, parent, opts);
    var cordoned := CordonFirst(s, p, parent, opts);
    CordonFirstFollows(s, p, parent, opts);
    if cordoned.result.Success? {
      DrainNames(cordoned.sys, DrainContext(parent, cordoned.sys.world, opts), cordoned.result.value, opts);
    }
  }

  /** Without faults and other writers a drain gets past its cordon exactly if a cordon succeeds. */
  lemma DrainCordonsIff(w: World, p: WritePolicy, parent: Context, opts: NodeOptions)
    requires Valid(w)
    ensures DrainAll(Sys(w, []), p, parent, opts).result.Some? <==>
            && !Done(parent, w)
            && exists name :: IsTheNode(w, opts, name) && Updatable(p, w.objects, Key(Node, "", name))
  {
    hide Valid, Follows, DrainCordoned, DrainContext, IsTheNode, Rewrite, NodeNameOf, Updatable;
    var drained := opts.(uncordon := false);
    CordonSucceedsIff(w, p, parent, drained);
    SameNode(w, parent, opts);
    var cordoned := CordonFirst(Sys(w, []), p, parent, opts);
    CordonFirstFollows(Sys(w, []), p, parent, opts);
    if cordoned.result.Success? {
      DrainNames(cordoned.sys, DrainContext(parent, cordoned.sys.world, opts), cordoned.result.value, opts);
    }
  }

  lemma SameNode(w: World, ctx: Context, opts: NodeOptions)
    requires Valid(w)
    ensures NodeNameOf(Sys(w, []), ctx, opts) == NodeNameOf(Sys(w, []), ctx, opts.(uncordon := false))
    ensures forall name :: IsTheNode(w, opts, name) <==> IsTheNode(w, opts.(uncordon := false), name)
  {
    hide Valid;
  }

  /** The drain's pod list is answered. */
  predicate ListAnswered(cordoned: Sys, parent: Context, opts: NodeOptions) {
    Answers(DrainContext(parent, cordoned.world, opts), cordoned)
  }

  /** A drain that cordoned its node and got the pods listed refuses if and only if the listing holds a pod of the
      node whose loss the options do not accept; then it has sent no eviction. The report's skipped pods are exactly
      the stored pods of the node that may stay. */
  lemma DrainRefusesIff(s: Sys, p: WritePolicy, parent: Context, opts: NodeOptions)
    requires Valid(s.world)
    ensures var out := DrainAll(s, p, parent, opts);
            var cordoned := CordonFirst(s, p, parent, opts);
            cordoned.result.Success? && ListAnswered(cordoned.sys, parent, opts) ==>
              var w, node := Listing(cordoned.sys), cordoned.result.value;
              && out.result.Some?
              && (out.err == Some(Invalid) <==> exists k :: MustRefuseAt(w, node, k, opts))
              && (out.err == Some(Invalid) ==> |Made(s, out.sys)| == 1 && out.result.value.evicted == [])
              && (forall k :: k in out.result.value.skipped <==> MayStayAt(w, node, k, opts))
  {
    hide Valid, Follows, CordonFirst, DrainCordoned, DrainContext, Made, Extends, Accounts, MustRefuse, MayStay,
         Distinct;
    var cordoned := CordonFirst(s, p, parent, opts);
    CordonFirstFollows(s, p, parent, opts);
    if cordoned.result.Success? && ListAnswered(cordoned.sys, parent, opts) {
      var ctx := DrainContext(parent, cordoned.sys.world, opts);
      DrainReportIsExact(s, p, parent, opts);
      DrainCordonedRefusesIff(cordoned.sys, ctx, cordoned.result.value, opts);
    }
  }

  lemma DrainCordonedRefusesIff(t: Sys, ctx: Context, node: string, opts: NodeOptions)
    requires Valid(t.world) && ctx.deadline.Some? && Answers(ctx, t)
    ensures var out := DrainCordoned(t, ctx, node, opts);
            && out.result.Some?
            && (out.err == Some(Invalid) <==> exists k :: MustRefuseAt(Listing(t), node, k, opts))
            && (out.err == Some(Invalid) ==> out.result.value.evicted == [])
            && (forall k :: k in out.result.value.skipped <==> MayStayAt(Listing(t), node, k, opts))
  {
    hide Valid, Items, Pick, EvictLoop, WaitLoop, MustRefuseAt, MayStayAt, MayGoAt, Made, Extends, Accounts;
    var listed := List(t, ctx, PodsOf(node));
    var pods := listed.result.value;
    ListedArePods(t, ctx, node);
    var refused, left := Pick(pods, node, opts, Refuse), Pick(pods, node, opts, Leave);
    forall k
      ensures MustRefuseAt(Listing(t), node, k, opts) ==> refused != []
      ensures k in Keys(left) <==> MayStayAt(Listing(t), node, k, opts)
    {
      PlanOfTheStore(t, ctx, node, opts, k);
      assert k in Keys(left) <==> Names(left, k);
    }
    if refused != [] {
      PlanOfTheStore(t, ctx, node, opts, refused[0].key);
      assert Names(refused, refused[0].key);
    } else {
      var plan := Pick(pods, node, opts, EvictIt);
      NeverInvalid(listed.sys, ctx, plan, [], 0);
      var evictions := EvictLoop(listed.sys, ctx, plan, [], 0);
      NeverInvalidWait(evictions.sys, ctx, evictions.evicted, 0);
    }
  }

  /** A drain without an error has evicted exactly the stored pods of the node that may go. */
  lemma DrainEvictsWhatMayGo(s: Sys, p: WritePolicy, parent: Context, opts: NodeOptions)
    requires Valid(s.world)
    ensures var out := DrainAll(s, p, parent, opts);
            var cordoned := CordonFirst(s, p, parent, opts);
            out.err.None? ==>
              && cordoned.result.Success?
              && out.result.Some?
              && (forall k :: k in out.result.value.evicted <==>
                    MayGoAt(Listing(cordoned.sys), cordoned.result.value, k, opts))
  {
    hide Valid, Follows, CordonFirst, Items, Pick, EvictLoop, WaitLoop, MayGoAt, MayStayAt, MustRefuseAt, DrainContext;
    var out := DrainAll(s, p, parent, opts);
    var cordoned := CordonFirst(s, p, parent, opts);
    CordonFirstFollows(s, p, parent, opts);
    if out.err.None? {
      var t, node := cordoned.sys, cordoned.result.value;
      var ctx := DrainContext(parent, t.world, opts);
      var listed := List(t, ctx, PodsOf(node));
      var pods := listed.result.value;
      ListedArePods(t, ctx, node);
      var plan := Pick(pods, node, opts, EvictIt);
      AllEvicted(listed.sys, ctx, plan);
      var evicted := EvictLoop(listed.sys, ctx, plan, [], 0).evicted;
      forall k ensures k in Keys(evicted) <==> MayGoAt(Listing(t), node, k, opts) {
        PlanOfTheStore(t, ctx, node, opts, k);
        SameNames(evicted, plan, k);
      }
    }
  }

  lemma SameNames(evicted: seq<Item>, plan: seq<Item>, k: Key)
    requires forall item :: item in evicted <==> item in plan
    ensures k in Keys(evicted) <==> Names(plan, k)
  {
    if Names(plan, k) {
      var i :| 0 <= i < |plan| && plan[i].key == k;
      assert plan[i] in evicted;
      var j :| 0 <= j < |evicted| && evicted[j] == plan[i];
      assert Keys(evicted)[j] == k;
    }
    if k in Keys(evicted) {
      var j :| 0 <= j < |evicted| && Keys(evicted)[j] == k;
      assert evicted[j] in plan;
      var i :| 0 <= i < |plan| && plan[i] == evicted[j];
    }
  }

  /******* Success *******/

  /** Each of the pods in turn is accepted or gone already. */
  predicate AcceptsAll(s: Sys, ctx: Context, pods: seq<Item>)
    decreases |pods|
  {
    pods != [] ==>
      var reply := Evict(s, ctx, pods[0].key);
      reply.answer in {Accepted, Missing} && AcceptsAll(reply.sys, ctx, pods[1..])
  }

  /** Each of the pods in turn is looked up and not found, or found replaced. */
  predicate AllGone(s: Sys, ctx: Context, pods: seq<Item>)
    decreases |pods|
  {
    pods != [] ==>
      var reply := Get(s, ctx, pods[0].key);
      && (reply.result == Failure(NotFound)
          || (reply.result.Success? && reply.result.value.uid != pods[0].state.uid))
      && AllGone(reply.sys, ctx, pods[1..])
  }

  function AfterEvictions(s: Sys, ctx: Context, pods: seq<Item>): Sys
    decreases |pods|
  {
    if pods == [] then s else AfterEvictions(Evict(s, ctx, pods[0].key).sys, ctx, pods[1..])
  }

  lemma {:induction false} AcceptedRound(s: Sys, ctx: Context, pods: seq<Item>, evicted: seq<Item>)
    requires AcceptsAll(s, ctx, pods)
    ensures EvictRound(s, ctx, pods, evicted, []) ==
            RoundOutcome(AfterEvictions(s, ctx, pods), evicted + pods, [], [], None)
    decreases |pods|
  {
    if pods == [] {
      assert evicted + pods == evicted;
    } else {
      AcceptedRound(Evict(s, ctx, pods[0].key).sys, ctx, pods[1..], evicted + [pods[0]]);
      assert evicted + [pods[0]] + pods[1..] == evicted + pods;
    }
  }

  lemma {:induction false} GoneRound(s: Sys, ctx: Context, pods: seq<Item>)
    requires AllGone(s, ctx, pods)
    ensures WaitRound(s, ctx, pods, []).err.None? && WaitRound(s, ctx, pods, []).remaining == []
    decreases |pods|
  {
    if pods != [] { GoneRound(Get(s, ctx, pods[0].key).sys, ctx, pods[1..]); }
  }

  /** The planned pods as the drain sees them. */
  function PlanOf(cordoned: Sys, parent: Context, node: string, opts: NodeOptions): seq<Item>
    requires Valid(cordoned.world)
  {
    var ctx := DrainContext(parent, cordoned.world, opts);
    var listed := List(cordoned, ctx, PodsOf(node));
    ListedArePods(cordoned, ctx, node);
    if listed.result.Failure? then [] else Pick(listed.result.value, node, opts, EvictIt)
  }

  /** From the cordon on: the pods are listed, none must be refused, each planned pod is accepted or gone already,
      and each is gone when it is looked up. */
  ghost predicate GoesWell(t: Sys, parent: Context, node: string, opts: NodeOptions) {
    && Valid(t.world)
    && ListAnswered(t, parent, opts)
    && var ctx, plan := DrainContext(parent, t.world, opts), PlanOf(t, parent, node, opts);
       && (forall k :: !MustRefuseAt(Listing(t), node, k, opts))
       && AcceptsAll(Arrive(t), ctx, plan)
       && AllGone(AfterEvictions(Arrive(t), ctx, plan), ctx, plan)
  }

  /** Then the drain succeeds, with every planned pod evicted in one round. */
  lemma DrainSucceeds(s: Sys, p: WritePolicy, parent: Context, opts: NodeOptions)
    requires Valid(s.world)
    ensures var out := DrainAll(s, p, parent, opts);
            var cordoned := CordonFirst(s, p, parent, opts);
            cordoned.result.Success? && GoesWell(cordoned.sys, parent, cordoned.result.value, opts) ==>
              && out.err.None?
              && out.result.Some?
              && out.result.value.evicted == Keys(PlanOf(cordoned.sys, parent, cordoned.result.value, opts))
              && out.rounds == 2
  {
    hide Valid, Follows, CordonFirst, Items, Pick, MustRefuseAt, EvictRound, WaitRound, DrainContext, Evict, Made,
         Extends, Accounts, Distinct;
    var cordoned := CordonFirst(s, p, parent, opts);
    CordonFirstFollows(s, p, parent, opts);
    if cordoned.result.Success? && GoesWell(cordoned.sys, parent, cordoned.result.value, opts) {
      var t, node := cordoned.sys, cordoned.result.value;
      var ctx := DrainContext(parent, t.world, opts);
      var plan := PlanOf(t, parent, node, opts);
      DrainCordonedRefusesIff(t, ctx, node, opts);
      AcceptedRound(Arrive(t), ctx, plan, []);
      assert [] + plan == plan;
      GoneRound(AfterEvictions(Arrive(t), ctx, plan), ctx, plan);
    }
  }

  lemma NamesItsFirst(items: seq<Item>)
    requires items != []
    ensures Names(items, items[0].key)
  {
  }

  /** So a node whose pods may all stay is drained at once. */
  lemma NothingToEvictSucceeds(s: Sys, p: WritePolicy, parent: Context, opts: NodeOptions)
    requires Valid(s.world)
    ensures var cordoned := CordonFirst(s, p, parent, opts);
            cordoned.result.Success? && ListAnswered(cordoned.sys, parent, opts) ==>
              var w, node := Listing(cordoned.sys), cordoned.result.value;
              (forall k | k in w.objects && OnNode(w.objects[k], node) :: MayStayAt(w, node, k, opts)) ==>
                DrainAll(s, p, parent, opts).err.None?
  {
    hide Valid, Follows, CordonFirst, Items, Pick, DrainContext, Evict, DrainAll;
    var cordoned := CordonFirst(s, p, parent, opts);
    CordonFirstFollows(s, p, parent, opts);
    if cordoned.result.Success? && ListAnswered(cordoned.sys, parent, opts) {
      var t, node := cordoned.sys, cordoned.result.value;
      var w := Listing(t);
      var ctx := DrainContext(parent, t.world, opts);
      if forall k | k in w.objects && OnNode(w.objects[k], node) :: MayStayAt(w, node, k, opts) {
        ListedArePods(t, ctx, node);
        var plan := PlanOf(t, parent, node, opts);
        forall k ensures !MustRefuseAt(w, node, k, opts) && !MayGoAt(w, node, k, opts) {
          if k in w.objects && OnNode(w.objects[k], node) { assert MayStayAt(w, node, k, opts); }
        }
        if plan != [] {
          PlanOfTheStore(t, ctx, node, opts, plan[0].key);
          NamesItsFirst(plan);
        }
        DrainSucceeds(s, p, parent, opts);
      }
    }
  }

  /******* Errors have a cause *******/

  /** On the way from s to out the pod was looked up and still there. */
  ghost predicate WasStillThere(s: Sys, ctx: Context, item: Item, out: Sys) {
    exists u :: IsLookUp(s, u, ctx, item, out)
  }

  ghost predicate IsLookUp(s: Sys, u: Sys, ctx: Context, item: Item, out: Sys) {
    && Follows(s, u)
    && Follows(Get(u, ctx, item.key).sys, out)
    && Get(u, ctx, item.key).result.Success?
    && Get(u, ctx, item.key).result.value.uid == item.state.uid
  }

  /** The last request before out was the look-up of the pod, and it got no usable answer. */
  ghost predicate LookUpFailed(s: Sys, u: Sys, ctx: Context, item: Item, out: Sys) {
    && Follows(s, u)
    && Get(u, ctx, item.key).sys == out
    && Get(u, ctx, item.key).result.Failure?
    && Get(u, ctx, item.key).result.error != NotFound
  }

  /** The last request before out was the eviction of the pod, and it got no answer. */
  ghost predicate EvictionFailed(s: Sys, u: Sys, ctx: Context, item: Item, out: Sys) {
    Follows(s, u) && Evict(u, ctx, item.key).sys == out && Evict(u, ctx, item.key).answer == Unanswered
  }

  lemma {:induction false} EvictRoundCause(
    s: Sys, ctx: Context, todo: seq<Item>, evicted: seq<Item>, refused: seq<Item>)
    returns (u: Sys, item: Item)
    requires EvictRound(s, ctx, todo, evicted, refused).err.Some?
    ensures item in todo && EvictionFailed(s, u, ctx, item, EvictRound(s, ctx, todo, evicted, refused).sys)
    decreases |todo|
  {
    hide Follows, Evict;
    var reply := Evict(s, ctx, todo[0].key);
    EvictFollows(s, ctx, todo[0].key);
    if reply.answer == Unanswered {
      u, item := s, todo[0];
      FollowsReflexive(s);
    } else {
      var more := if reply.answer == TooMany then evicted else evicted + [todo[0]];
      var again := if reply.answer == TooMany then refused + [todo[0]] else refused;
      u, item := EvictRoundCause(reply.sys, ctx, todo[1..], more, again);
      FollowsTransitive(s, reply.sys, u);
    }
  }

  /** The server said about the pod that its budget does not allow the eviction. */
  ghost predicate WasRefused(s: Sys, item: Item, out: Sys) {
    Eviction(item.key, None, TooMany) in Made(s, out)
  }

  lemma {:induction false} EvictRoundRefused(
    s: Sys, ctx: Context, todo: seq<Item>, evicted: seq<Item>, refused: seq<Item>)
    ensures var r := EvictRound(s, ctx, todo, evicted, refused);
            && Extends(s, r.sys)
            && forall x | x in r.refused :: x in refused || (x in todo && WasRefused(s, x, r.sys))
    decreases |todo|
  {
    hide Evict, Made, Extends;
    var r := EvictRound(s, ctx, todo, evicted, refused);
    if todo == [] {
      MadeNothing(s, s);
    } else {
      var reply := Evict(s, ctx, todo[0].key);
      EvictMade(s, ctx, todo[0].key);
      if reply.answer != Unanswered {
        var more := if reply.answer == TooMany then evicted else evicted + [todo[0]];
        var again := if reply.answer == TooMany then refused + [todo[0]] else refused;
        EvictRoundRefused(reply.sys, ctx, todo[1..], more, again);
        MadeAppend(s, reply.sys, r.sys);
        if reply.answer == TooMany {
          assert Made(s, reply.sys)[0] == Eviction(todo[0].key, None, TooMany);
          assert WasRefused(s, todo[0], r.sys);
        }
      }
    }
  }

  /** Evicting fails only because an eviction got no answer, or because the time was up while a budget still refused
      a pod. */
  lemma {:induction false} EvictingErrsForCause(
    s: Sys, ctx: Context, pending: seq<Item>, evicted: seq<Item>, rounds: nat)
    requires ctx.deadline.Some?
    ensures var out := EvictLoop(s, ctx, pending, evicted, rounds);
            out.err.Some? ==>
              || (&& out.err == Some(Api(Unavailable))
                  && exists u, item :: item in pending && EvictionFailed(s, u, ctx, item, out.sys))
              || (&& out.err == Some(TimedOut)
                  && Done(ctx, out.sys.world)
                  && Extends(s, out.sys)
                  && exists item :: item in pending && WasRefused(s, item, out.sys))
    decreases TimeLeft(ctx, s.world)
  {
    hide Follows, Evict, EvictRound, Made, Extends;
    var round := EvictRound(s, ctx, pending, evicted, []);
    var out := EvictLoop(s, ctx, pending, evicted, rounds);
    EvictRoundRefused(s, ctx, pending, evicted, []);
    EvictRoundMoves(s, ctx, pending, evicted, [], "");
    if round.err.Some? {
      NeverInvalidRound(s, ctx, pending, evicted, []);
      var u, item := EvictRoundCause(s, ctx, pending, evicted, []);
    } else if round.refused != [] {
      var wake := Select(round.sys, ctx);
      SelectFollows(round.sys, ctx);
      SelectMade(round.sys, ctx);
      MadeAppend(s, round.sys, wake.sys);
      if wake.timer {
        EvictingErrsForCause(wake.sys, ctx, round.refused, round.evicted, rounds + 1);
        EvictLoopReports(wake.sys, ctx, round.refused, round.evicted, rounds + 1);
        FollowsTransitive(s, round.sys, wake.sys);
        MadeAppend(s, wake.sys, out.sys);
        if out.err == Some(Api(Unavailable))
           && exists u, item :: item in round.refused && EvictionFailed(wake.sys, u, ctx, item, out.sys)
        {
          var u, item :| item in round.refused && EvictionFailed(wake.sys, u, ctx, item, out.sys);
          FollowsTransitive(s, wake.sys, u);
          assert item in pending && EvictionFailed(s, u, ctx, item, out.sys);
        } else if out.err.Some? {
          var item :| item in round.refused && WasRefused(wake.sys, item, out.sys);
          assert item in pending && WasRefused(s, item, out.sys);
        }
      } else {
        assert round.refused[0] in pending && WasRefused(s, round.refused[0], out.sys);
      }
    }
  }

  /** What one look at every pod can end with. */
  lemma {:induction false} WaitRoundCause(s: Sys, ctx: Context, todo: seq<Item>, remaining: seq<Item>)
    ensures var r := WaitRound(s, ctx, todo, remaining);
            && Follows(s, r.sys)
            && (r.err.Some? ==>
                  r.err.value.Api? && exists u, item :: item in todo && LookUpFailed(s, u, ctx, item, r.sys))
            && (forall x | x in r.remaining :: x in remaining || (x in todo && WasStillThere(s, ctx, x, r.sys)))
    decreases |todo|
  {
    hide Follows, Get;
    var r := WaitRound(s, ctx, todo, remaining);
    FollowsReflexive(s);
    if todo != [] {
      var reply := Get(s, ctx, todo[0].key);
      GetFollows(s, ctx, todo[0].key);
      if reply.result.Failure? && reply.result.error != NotFound {
        FollowsReflexive(reply.sys);
        assert LookUpFailed(s, s, ctx, todo[0], r.sys);
      } else {
        var stays := reply.result.Success? && reply.result.value.uid == todo[0].state.uid;
        var kept := if stays then remaining + [todo[0]] else remaining;
        WaitRoundCause(reply.sys, ctx, todo[1..], kept);
        FollowsTransitive(s, reply.sys, r.sys);
        if r.err.Some? {
          var u, item :| item in todo[1..] && LookUpFailed(reply.sys, u, ctx, item, r.sys);
          FollowsTransitive(s, reply.sys, u);
          assert item in todo && LookUpFailed(s, u, ctx, item, r.sys);
        }
        forall x | x in r.remaining ensures x in remaining || (x in todo && WasStillThere(s, ctx, x, r.sys)) {
          if x in todo[1..] && WasStillThere(reply.sys, ctx, x, r.sys) {
            var u :| IsLookUp(reply.sys, u, ctx, x, r.sys);
            FollowsTransitive(s, reply.sys, u);
            assert IsLookUp(s, u, ctx, x, r.sys);
          } else if stays && x == todo[0] {
            assert IsLookUp(s, s, ctx, x, r.sys);
          }
        }
      }
    }
  }

  /** Waiting fails only because a look-up failed, or because the time was up while a pod was still there. */
  lemma {:induction false} WaitingErrsForCause(s: Sys, ctx: Context, pending: seq<Item>, rounds: nat)
    requires ctx.deadline.Some?
    ensures var out := WaitLoop(s, ctx, pending, rounds);
            out.err.Some? ==>
              || (out.err.value.Api? && exists u, item :: item in pending && LookUpFailed(s, u, ctx, item, out.sys))
              || (&& out.err == Some(TimedOut)
                  && Done(ctx, out.sys.world)
                  && exists item :: item in pending && WasStillThere(s, ctx, item, out.sys))
    decreases TimeLeft(ctx, s.world)
  {
    hide Follows, Get, WaitRound, IsLookUp;
    var round := WaitRound(s, ctx, pending, []);
    var out := WaitLoop(s, ctx, pending, rounds);
    WaitRoundCause(s, ctx, pending, []);
    if round.err.None? && round.remaining != [] {
      var wake := Select(round.sys, ctx);
      SelectFollows(round.sys, ctx);
      FollowsTransitive(s, round.sys, wake.sys);
      if !wake.timer {
        StillThereLater(s, ctx, round.remaining[0], round.sys, out.sys);
      } else {
        WaitingErrsForCause(wake.sys, ctx, round.remaining, rounds + 1);
        if out.err.Some? {
          if out.err.value.Api? {
            var u, item :| item in round.remaining && LookUpFailed(wake.sys, u, ctx, item, out.sys);
            FollowsTransitive(s, wake.sys, u);
            assert item in pending && LookUpFailed(s, u, ctx, item, out.sys);
          } else {
            var item :| item in round.remaining && WasStillThere(wake.sys, ctx, item, out.sys);
            StillThereEarlier(s, wake.sys, ctx, item, out.sys);
            assert item in pending;
          }
        }
      }
    }
  }

  lemma StillThereLater(s: Sys, ctx: Context, item: Item, t: Sys, out: Sys)
    requires WasStillThere(s, ctx, item, t) && Follows(t, out)
    ensures WasStillThere(s, ctx, item, out)
  {
    hide Follows, Get;
    var u :| IsLookUp(s, u, ctx, item, t);
    FollowsTransitive(Get(u, ctx, item.key).sys, t, out);
    assert IsLookUp(s, u, ctx, item, out);
  }

  lemma StillThereEarlier(s: Sys, t: Sys, ctx: Context, item: Item, out: Sys)
    requires Follows(s, t) && WasStillThere(t, ctx, item, out)
    ensures WasStillThere(s, ctx, item, out)
  {
    hide Follows, Get;
    var u :| IsLookUp(t, u, ctx, item, out);
    FollowsTransitive(s, t, u);
    assert IsLookUp(s, u, ctx, item, out);
  }
}
