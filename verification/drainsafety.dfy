/** What a drain guarantees, whatever the environment does in between (pkg/capi/drain.go). */
module DrainSafety {
  import opened Wrappers
  import opened Policy
  import opened Store
  import opened Interleaving
  import opened Footprint
  import opened Changes
  import opened Capi
  import opened DrainPlanning
  import opened Drain

  /******* The loops only move the world forward *******/

  lemma {:induction false} EvictRoundMoves(
    s: Sys, ctx: Context, todo: seq<Item>, evicted: seq<Item>, refused: seq<Item>, node: string)
    ensures Moves(s, EvictRound(s, ctx, todo, evicted, refused).sys, node)
    decreases |todo|
  {
    hide Moves;
    if todo == [] {
      MovesReflexive(s, node);
    } else {
      var reply := Evict(s, ctx, todo[0].key);
      EvictMoves(s, ctx, todo[0].key, node);
      if reply.answer == TooMany {
        EvictRoundMoves(reply.sys, ctx, todo[1..], evicted, refused + [todo[0]], node);
      } else if reply.answer != Unanswered {
        EvictRoundMoves(reply.sys, ctx, todo[1..], evicted + [todo[0]], refused, node);
      }
      if reply.answer != Unanswered {
        MovesTransitive(s, reply.sys, EvictRound(s, ctx, todo, evicted, refused).sys, node);
      }
    }
  }

  lemma {:induction false} EvictLoopMoves(
    s: Sys, ctx: Context, pending: seq<Item>, evicted: seq<Item>, rounds: nat, node: string)
    requires ctx.deadline.Some?
    ensures Moves(s, EvictLoop(s, ctx, pending, evicted, rounds).sys, node)
    decreases TimeLeft(ctx, s.world)
  {
    hide Moves;
    var round := EvictRound(s, ctx, pending, evicted, []);
    EvictRoundMoves(s, ctx, pending, evicted, [], node);
    if round.err.None? && round.refused != [] {
      var wake := Select(round.sys, ctx);
      SelectMoves(round.sys, ctx, node);
      MovesTransitive(s, round.sys, wake.sys, node);
      if wake.timer {
        EvictLoopMoves(wake.sys, ctx, round.refused, round.evicted, rounds + 1, node);
        MovesTransitive(s, wake.sys, EvictLoop(s, ctx, pending, evicted, rounds).sys, node);
      }
    }
  }

  lemma {:induction false} WaitRoundMoves(s: Sys, ctx: Context, todo: seq<Item>, remaining: seq<Item>, node: string)
    ensures Moves(s, WaitRound(s, ctx, todo, remaining).sys, node)
    decreases |todo|
  {
    hide Moves;
    if todo == [] {
      MovesReflexive(s, node);
    } else {
      var reply := Get(s, ctx, todo[0].key);
      ArriveMoves(s, node);
      if reply.result.Success? || reply.result.error == NotFound {
        var kept := if reply.result.Success? && reply.result.value.uid == todo[0].state.uid
                    then remaining + [todo[0]] else remaining;
        WaitRoundMoves(reply.sys, ctx, todo[1..], kept, node);
        MovesTransitive(s, reply.sys, WaitRound(s, ctx, todo, remaining).sys, node);
      }
    }
  }

  lemma {:induction false} WaitLoopMoves(s: Sys, ctx: Context, pending: seq<Item>, rounds: nat, node: string)
    requires ctx.deadline.Some?
    ensures Moves(s, WaitLoop(s, ctx, pending, rounds).sys, node)
    decreases TimeLeft(ctx, s.world)
  {
    hide Moves;
    var round := WaitRound(s, ctx, pending, []);
    WaitRoundMoves(s, ctx, pending, [], node);
    if round.err.None? && round.remaining != [] {
      var wake := Select(round.sys, ctx);
      SelectMoves(round.sys, ctx, node);
      MovesTransitive(s, round.sys, wake.sys, node);
      if wake.timer {
        WaitLoopMoves(wake.sys, ctx, round.remaining, rounds + 1, node);
        MovesTransitive(s, wake.sys, WaitLoop(s, ctx, pending, rounds).sys, node);
      }
    }
  }

  /******* Conservation *******/

  lemma {:induction false} EvictRoundConserves(
    s: Sys, ctx: Context, todo: seq<Item>, evicted: seq<Item>, refused: seq<Item>)
    ensures var r := EvictRound(s, ctx, todo, evicted, refused);
            && multiset(r.evicted) + multiset(r.refused) + multiset(r.untried) ==
               multiset(evicted) + multiset(refused) + multiset(todo)
            && evicted <= r.evicted
            && (r.err.None? <==> r.untried == [])
    decreases |todo|
  {
    if todo != [] {
      assert todo == [todo[0]] + todo[1..];
      var reply := Evict(s, ctx, todo[0].key);
      if reply.answer == TooMany {
        EvictRoundConserves(reply.sys, ctx, todo[1..], evicted, refused + [todo[0]]);
      } else if reply.answer != Unanswered {
        EvictRoundConserves(reply.sys, ctx, todo[1..], evicted + [todo[0]], refused);
      }
    }
  }

  /** No pod is lost and none is counted twice, for every schedule of answers over any number of rounds;
      success means that all of them were evicted. */
  lemma {:induction false} EvictLoopConserves(s: Sys, ctx: Context, pending: seq<Item>, evicted: seq<Item>, rounds: nat)
    requires ctx.deadline.Some?
    ensures var out := EvictLoop(s, ctx, pending, evicted, rounds);
            && multiset(out.evicted) + multiset(out.left) == multiset(evicted) + multiset(pending)
            && evicted <= out.evicted
            && (out.err.None? <==> out.left == [])
    decreases TimeLeft(ctx, s.world)
  {
    var round := EvictRound(s, ctx, pending, evicted, []);
    EvictRoundConserves(s, ctx, pending, evicted, []);
    assert multiset(round.evicted) + multiset(round.refused) + multiset(round.untried) ==
           multiset(evicted) + multiset(pending);
    assert multiset(round.refused + round.untried) == multiset(round.refused) + multiset(round.untried);
    if round.err.None? && round.refused != [] {
      var wake := Select(round.sys, ctx);
      assert multiset(round.untried) == multiset{} && round.refused + round.untried == round.refused;
      if wake.timer {
        EvictLoopConserves(wake.sys, ctx, round.refused, round.evicted, rounds + 1);
      }
    }
  }

  /******* The report *******/

  /** The pods whose eviction was answered with success or not found, in order. */
  function Answered(events: seq<Event>): seq<Key> {
    if events == [] then []
    else
      var e := events[|events| - 1];
      Answered(events[..|events| - 1]) + (if e.Eviction? && e.answer in {Accepted, Missing} then [e.pod] else [])
  }

  lemma {:induction false} AnsweredAppend(a: seq<Event>, b: seq<Event>)
    ensures Answered(a + b) == Answered(a) + Answered(b)
  {
    if b == [] {
      assert a + b == a;
    } else {
      assert (a + b)[..|a + b| - 1] == a + b[..|b| - 1];
      AnsweredAppend(a, b[..|b| - 1]);
    }
  }

  lemma AnsweredOne(e: Event)
    ensures Answered([e]) == if e.Eviction? && e.answer in {Accepted, Missing} then [e.pod] else []
  {
    var events := [e];
    assert events[..|events| - 1] == [];
    assert Answered([]) == [];
  }

  /** A sent eviction tells the truth unless its answer is lost. */
  predicate Honest(e: Event) {
    && e.Eviction?
    && (e.answer == Accepted ==> e.hit.Some?)
    && (e.answer in {Missing, TooMany} ==> e.hit.None?)
  }

  /** evicted is before plus the pods answered in made; at most the last eviction went unanswered, and then
      the error says so. */
  ghost predicate Reports(made: seq<Event>, before: seq<Item>, evicted: seq<Item>, err: Option<Error>) {
    && Keys(evicted) == Keys(before) + Answered(made)
    && forall i | 0 <= i < |made| ::
         && Honest(made[i])
         && (made[i].answer == Unanswered ==> i == |made| - 1 && err == Some(Api(Unavailable)))
  }

  lemma ReportsNothing(before: seq<Item>, err: Option<Error>)
    ensures Reports([], before, before, err)
  {
    assert Answered([]) == [];
  }

  lemma ReportsAppend(
    a: seq<Event>, b: seq<Event>, before: seq<Item>, middle: seq<Item>, evicted: seq<Item>, err: Option<Error>)
    requires Reports(a, before, middle, None) && Reports(b, middle, evicted, err)
    ensures Reports(a + b, before, evicted, err)
  {
    AnsweredAppend(a, b);
  }

  lemma EvictReports(s: Sys, ctx: Context, item: Item, before: seq<Item>)
    ensures var reply := Evict(s, ctx, item.key);
            var after := if reply.answer in {Accepted, Missing} then before + [item] else before;
            var err := if reply.answer == Unanswered then Some(Api(Unavailable)) else None;
            Reports(Made(s, reply.sys), before, after, err)
  {
    EvictMade(s, ctx, item.key);
    var made := Made(s, Evict(s, ctx, item.key).sys);
    if made == [] { ReportsNothing(before, Some(Api(Unavailable))); } else { AnsweredOne(made[0]); }
  }

  lemma {:induction false} EvictRoundReports(
    s: Sys, ctx: Context, todo: seq<Item>, evicted: seq<Item>, refused: seq<Item>)
    ensures var r := EvictRound(s, ctx, todo, evicted, refused);
            Extends(s, r.sys) && Reports(Made(s, r.sys), evicted, r.evicted, r.err)
    decreases |todo|
  {
    if todo == [] {
      MadeNothing(s, s);
      ReportsNothing(evicted, None);
    } else {
      var r := EvictRound(s, ctx, todo, evicted, refused);
      var reply := Evict(s, ctx, todo[0].key);
      EvictMade(s, ctx, todo[0].key);
      EvictReports(s, ctx, todo[0], evicted);
      if reply.answer != Unanswered {
        var more := if reply.answer == TooMany then evicted else evicted + [todo[0]];
        var again := if reply.answer == TooMany then refused + [todo[0]] else refused;
        EvictRoundReports(reply.sys, ctx, todo[1..], more, again);
        MadeAppend(s, reply.sys, r.sys);
        ReportsAppend(Made(s, reply.sys), Made(reply.sys, r.sys), evicted, more, r.evicted, r.err);
      }
    }
  }

  /** Evicted names exactly the pods accepted or already gone, in the order of their evictions. */
  lemma {:induction false} EvictLoopReports(s: Sys, ctx: Context, pending: seq<Item>, evicted: seq<Item>, rounds: nat)
    requires ctx.deadline.Some?
    ensures var out := EvictLoop(s, ctx, pending, evicted, rounds);
            Extends(s, out.sys) && Reports(Made(s, out.sys), evicted, out.evicted, out.err)
    decreases TimeLeft(ctx, s.world)
  {
    hide Reports;
    var round := EvictRound(s, ctx, pending, evicted, []);
    var out := EvictLoop(s, ctx, pending, evicted, rounds);
    EvictRoundReports(s, ctx, pending, evicted, []);
    if round.err.None? && round.refused != [] {
      var wake := Select(round.sys, ctx);
      SelectMade(round.sys, ctx);
      MadeAppend(s, round.sys, wake.sys);
      assert Made(s, wake.sys) == Made(s, round.sys) + [] == Made(s, round.sys);
      if wake.timer {
        EvictLoopReports(wake.sys, ctx, round.refused, round.evicted, rounds + 1);
        MadeAppend(s, wake.sys, out.sys);
        ReportsAppend(Made(s, wake.sys), Made(wake.sys, out.sys), evicted, round.evicted, out.evicted, out.err);
      } else {
        ReportsTimedOut(Made(s, round.sys), evicted, round.evicted);
      }
    }
  }

  lemma ReportsTimedOut(made: seq<Event>, before: seq<Item>, evicted: seq<Item>)
    requires Reports(made, before, evicted, None)
    ensures Reports(made, before, evicted, Some(TimedOut))
  {
  }

  lemma {:induction false} WaitRoundMakes(s: Sys, ctx: Context, todo: seq<Item>, remaining: seq<Item>)
    ensures var r := WaitRound(s, ctx, todo, remaining); Extends(s, r.sys) && Made(s, r.sys) == []
    decreases |todo|
  {
    if todo == [] {
      MadeNothing(s, s);
    } else {
      var reply := Get(s, ctx, todo[0].key);
      ArriveMade(s);
      if reply.result.Success? || reply.result.error == NotFound {
        var kept := if reply.result.Success? && reply.result.value.uid == todo[0].state.uid
                    then remaining + [todo[0]] else remaining;
        WaitRoundMakes(reply.sys, ctx, todo[1..], kept);
        MadeAppend(s, reply.sys, WaitRound(s, ctx, todo, remaining).sys);
      }
    }
  }

  /** The wait changes nothing. */
  lemma {:induction false} WaitLoopMakes(s: Sys, ctx: Context, pending: seq<Item>, rounds: nat)
    requires ctx.deadline.Some?
    ensures var out := WaitLoop(s, ctx, pending, rounds); Extends(s, out.sys) && Made(s, out.sys) == []
    decreases TimeLeft(ctx, s.world)
  {
    var round := WaitRound(s, ctx, pending, []);
    WaitRoundMakes(s, ctx, pending, []);
    if round.err.None? && round.remaining != [] {
      var wake := Select(round.sys, ctx);
      SelectMade(round.sys, ctx);
      MadeAppend(s, round.sys, wake.sys);
      if wake.timer {
        WaitLoopMakes(wake.sys, ctx, round.remaining, rounds + 1);
        MadeAppend(s, wake.sys, WaitLoop(s, ctx, pending, rounds).sys);
      }
    }
  }

  /******* Termination: how many rounds *******/

  /** waits timer waits have passed since start, all but the last of them before the deadline. */
  predicate WithinBudget(start: nat, waits: nat, ctx: Context, now: nat) {
    && ctx.deadline.Some?
    && start + waits * POLL_INTERVAL <= now
    && (waits > 0 ==> start + (waits - 1) * POLL_INTERVAL < ctx.deadline.value)
  }

  lemma BudgetLater(start: nat, waits: nat, ctx: Context, now: nat, later: nat)
    requires WithinBudget(start, waits, ctx, now) && now <= later
    ensures WithinBudget(start, waits, ctx, later)
  {
  }

  /** One more wait, begun before the deadline. */
  lemma BudgetStep(start: nat, waits: nat, ctx: Context, now: nat, later: nat)
    requires WithinBudget(start, waits, ctx, now) && now < ctx.deadline.value && now + POLL_INTERVAL <= later
    ensures WithinBudget(start, waits + 1, ctx, later)
  {
  }

  lemma SelectWaits(s: Sys, ctx: Context)
    ensures Select(s, ctx).sys.world.now >= s.world.now
    ensures Select(s, ctx).timer ==> Select(s, ctx).sys.world.now >= s.world.now + POLL_INTERVAL
  {
  }

  lemma {:induction false} EvictLoopBudget(
    s: Sys, ctx: Context, pending: seq<Item>, evicted: seq<Item>, rounds: nat, start: nat)
    requires ctx.deadline.Some? && WithinBudget(start, rounds, ctx, s.world.now)
    ensures var out := EvictLoop(s, ctx, pending, evicted, rounds);
            out.rounds > 0 && WithinBudget(start, out.rounds - 1, ctx, out.sys.world.now)
    decreases TimeLeft(ctx, s.world)
  {
    hide WithinBudget, EvictRound, Select;
    var round := EvictRound(s, ctx, pending, evicted, []);
    var out := EvictLoop(s, ctx, pending, evicted, rounds);
    SelectWaits(round.sys, ctx);
    if round.err.None? && round.refused != [] && Select(round.sys, ctx).timer {
      var wake := Select(round.sys, ctx);
      NothingToRefuse(s, ctx, pending, evicted);
      BudgetStep(start, rounds, ctx, s.world.now, wake.sys.world.now);
      EvictLoopBudget(wake.sys, ctx, round.refused, round.evicted, rounds + 1, start);
    } else {
      BudgetLater(start, rounds, ctx, s.world.now, out.sys.world.now);
    }
  }

  lemma NothingToRefuse(s: Sys, ctx: Context, pending: seq<Item>, evicted: seq<Item>)
    ensures pending == [] ==> EvictRound(s, ctx, pending, evicted, []).refused == []
    ensures pending == [] ==> WaitRound(s, ctx, pending, []).remaining == []
  {
  }

  lemma {:induction false} WaitLoopBudget(
    s: Sys, ctx: Context, pending: seq<Item>, rounds: nat, earlier: nat, start: nat)
    requires ctx.deadline.Some? && WithinBudget(start, earlier + rounds, ctx, s.world.now)
    ensures var out := WaitLoop(s, ctx, pending, rounds);
            out.rounds > 0 && WithinBudget(start, earlier + out.rounds - 1, ctx, out.sys.world.now)
    decreases TimeLeft(ctx, s.world)
  {
    hide WithinBudget, WaitRound, Select;
    var round := WaitRound(s, ctx, pending, []);
    var out := WaitLoop(s, ctx, pending, rounds);
    SelectWaits(round.sys, ctx);
    if round.err.None? && round.remaining != [] && Select(round.sys, ctx).timer {
      var wake := Select(round.sys, ctx);
      NothingToRefuse(s, ctx, pending, []);
      BudgetStep(start, earlier + rounds, ctx, s.world.now, wake.sys.world.now);
      WaitLoopBudget(wake.sys, ctx, round.remaining, rounds + 1, earlier, start);
    } else {
      BudgetLater(start, earlier + rounds, ctx, s.world.now, out.sys.world.now);
    }
  }

  /** ceil(timeout / interval). */
  function PollsIn(timeout: nat): nat {
    (timeout + POLL_INTERVAL - 1) / POLL_INTERVAL
  }

  lemma WaitsAreBounded(start: nat, waits: nat, ctx: Context, now: nat, timeout: nat)
    requires WithinBudget(start, waits, ctx, now) && ctx.deadline.value <= start + timeout
    ensures waits <= PollsIn(timeout)
  {
    if waits > 0 { assert (waits - 1) * POLL_INTERVAL < timeout; }
  }

  /** The poll interval is five seconds and the default timeout two minutes: without one of its own, a drain makes at
      most 26 rounds. */
  lemma DefaultDrainTerminates(s: Sys, p: WritePolicy, parent: Context, opts: NodeOptions)
    requires Valid(s.world) && opts.timeout <= 0
    ensures DrainAll(s, p, parent, opts).rounds <= 26
  {
    hide Valid, DrainAll;
    DrainTerminates(s, p, parent, opts);
    assert PollsIn(TimeoutOf(opts)) == 24;
  }

  /** A drain ends by its own timeout, two minutes by default, or by its caller's deadline if that is earlier. */
  lemma DrainDeadlineIsTheEarlier(parent: Context, w: World, opts: NodeOptions)
    ensures var own := w.now + if opts.timeout <= 0 then 120_000_000_000 else opts.timeout;
            var deadline := DrainContext(parent, w, opts).deadline;
            && deadline.Some?
            && deadline.value <= own
            && (parent.deadline.Some? ==> deadline.value <= parent.deadline.value)
            && (deadline.value == own || deadline == parent.deadline)
  {
  }

  /** A wait ends with its timer no earlier than after five seconds, and later only if the others took longer;
      otherwise it ends because the context did. */
  lemma WaitTakesFiveSeconds(s: Sys, ctx: Context)
    ensures var wake, others := Select(s, ctx), Arrive(s).world.now;
            && (wake.timer ==>
                  && wake.sys.world.now >= s.world.now + 5_000_000_000
                  && wake.sys.world.now >= others
                  && wake.sys.world.now in {s.world.now + 5_000_000_000, others})
            && (!wake.timer ==> Done(ctx, wake.sys.world))
  {
  }

  /** The two loops together make at most ceil(timeout / interval) + 2 rounds, whichever ready case each
      select picks. */
  lemma DrainTerminates(s: Sys, p: WritePolicy, parent: Context, opts: NodeOptions)
    requires Valid(s.world)
    ensures DrainAll(s, p, parent, opts).rounds <= PollsIn(TimeoutOf(opts)) + 2
  {
    hide Valid, WithinBudget, PollsIn, Follows, CordonFirst, TimeoutOf, WithTimeout, EvictLoop, WaitLoop;
    var cordoned := CordonFirst(s, p, parent, opts);
    CordonFirstFollows(s, p, parent, opts);
    if cordoned.result.Success? {
      DrainCordonedTerminates(
        cordoned.sys, DrainContext(parent, cordoned.sys.world, opts), cordoned.result.value, opts, TimeoutOf(opts));
    }
  }

  lemma DrainCordonedTerminates(t: Sys, ctx: Context, node: string, opts: NodeOptions, timeout: nat)
    requires Valid(t.world) && ctx.deadline.Some? && ctx.deadline.value <= t.world.now + timeout
    ensures DrainCordoned(t, ctx, node, opts).rounds <= PollsIn(timeout) + 2
  {
    hide Valid, WithinBudget, PollsIn, EvictLoop, WaitLoop;
    var listed := List(t, ctx, PodsOf(node));
    if listed.result.Success? {
      ListedArePods(t, ctx, node);
      var plan := Pick(listed.result.value, node, opts, EvictIt);
      var start := listed.sys.world.now;
      StartsWithinBudget(start, ctx);
      EvictLoopBudget(listed.sys, ctx, plan, [], 0, start);
      var evictions := EvictLoop(listed.sys, ctx, plan, [], 0);
      WaitsAreBounded(start, evictions.rounds - 1, ctx, evictions.sys.world.now, timeout);
      WaitLoopBudget(evictions.sys, ctx, evictions.evicted, 0, evictions.rounds - 1, start);
      var waited := WaitLoop(evictions.sys, ctx, evictions.evicted, 0);
      WaitsAreBounded(start, evictions.rounds - 1 + waited.rounds - 1, ctx, waited.sys.world.now, timeout);
    }
  }

  lemma StartsWithinBudget(start: nat, ctx: Context)
    requires ctx.deadline.Some?
    ensures WithinBudget(start, 0, ctx, start)
  {
  }

  /******* Gone means gone *******/

  /** A listed pod can only be found under its own key. */
  lemma OnlyUnderItsKey(origin: World, w: World, item: Item, k: Key)
    requires Valid(origin) && Later(origin, w)
    requires item.key in origin.objects && origin.objects[item.key] == item.state
    requires k in w.objects && w.objects[k].uid == item.state.uid
    ensures k == item.key
  {
    assert KeyLater(origin, w, k);
  }

  lemma {:induction false} WaitRoundGone(origin: World, s: Sys, ctx: Context, todo: seq<Item>, remaining: seq<Item>)
    requires Descends(origin, s) && ListedIn(origin, todo)
    ensures var r := WaitRound(s, ctx, todo, remaining);
            && (r.err.None? ==> forall i | 0 <= i < |todo| ::
                  todo[i] in r.remaining || !Exists(r.sys.world, todo[i].state.uid))
            && (forall x | x in r.remaining :: x in remaining || x in todo)
            && (forall x | x in remaining :: x in r.remaining)
    decreases |todo|
  {
    hide Descends, Follows, Holds, Exists, Moves;
    if todo != [] {
      var r := WaitRound(s, ctx, todo, remaining);
      var item := todo[0];
      var reply := Get(s, ctx, item.key);
      GetFollows(s, ctx, item.key);
      DescendsFurther(origin, s, reply.sys);
      assert forall i | 0 <= i < |todo| - 1 :: todo[1..][i] == todo[i + 1];
      if reply.result.Success? || reply.result.error == NotFound {
        var stays := reply.result.Success? && reply.result.value.uid == item.state.uid;
        var kept := if stays then remaining + [item] else remaining;
        WaitRoundGone(origin, reply.sys, ctx, todo[1..], kept);
        if stays {
          assert item in kept;
        } else if r.err.None? {
          NotUnderItsKey(origin, reply.sys, item);
          WaitRoundMoves(reply.sys, ctx, todo[1..], kept, "");
          MovesGives(reply.sys, r.sys, "");
          StaysGone(origin, reply.sys, r.sys, item);
        }
        forall i | 0 <= i < |todo| && r.err.None?
          ensures todo[i] in r.remaining || !Exists(r.sys.world, todo[i].state.uid)
        {
          if i > 0 { assert todo[i] == todo[1..][i - 1]; }
        }
      }
    }
  }

  lemma MovesGives(s: Sys, t: Sys, node: string)
    requires Moves(s, t, node)
    ensures Follows(s, t)
  {
  }

  lemma NotUnderItsKey(origin: World, s: Sys, item: Item)
    requires Descends(origin, s)
    requires item.key in origin.objects && origin.objects[item.key] == item.state
    requires item.key in s.world.objects ==> s.world.objects[item.key].uid != item.state.uid
    ensures !Exists(s.world, item.state.uid)
  {
    forall k | k in s.world.objects ensures s.world.objects[k].uid != item.state.uid {
      if s.world.objects[k].uid == item.state.uid { OnlyUnderItsKey(origin, s.world, item, k); }
    }
  }

  lemma StaysGone(origin: World, s: Sys, t: Sys, item: Item)
    requires Descends(origin, s) && Follows(s, t)
    requires item.key in origin.objects && origin.objects[item.key] == item.state
    requires !Exists(s.world, item.state.uid)
    ensures !Exists(t.world, item.state.uid)
  {
    GoneForEver(s.world, t.world, item.state.uid);
  }

  /** waitForPodsGone returning no error means that no pod of its input exists any more under its uid, also
      those found gone in an earlier round. */
  lemma {:induction false} WaitLoopGone(origin: World, s: Sys, ctx: Context, pending: seq<Item>, rounds: nat)
    requires Descends(origin, s) && ListedIn(origin, pending) && ctx.deadline.Some?
    ensures var out := WaitLoop(s, ctx, pending, rounds);
            out.err.None? ==> forall i | 0 <= i < |pending| :: !Exists(out.sys.world, pending[i].state.uid)
    decreases TimeLeft(ctx, s.world)
  {
    hide Descends, Follows, Holds;
    var round := WaitRound(s, ctx, pending, []);
    var out := WaitLoop(s, ctx, pending, rounds);
    WaitRoundGone(origin, s, ctx, pending, []);
    WaitRoundMoves(s, ctx, pending, [], "");
    DescendsFurther(origin, s, round.sys);
    if round.err.None? && round.remaining != [] {
      var wake := Select(round.sys, ctx);
      SelectFollows(round.sys, ctx);
      DescendsFurther(origin, round.sys, wake.sys);
      if wake.timer {
        assert ListedIn(origin, round.remaining) by {
          forall i | 0 <= i < |round.remaining|
            ensures round.remaining[i].key in origin.objects
            ensures origin.objects[round.remaining[i].key] == round.remaining[i].state
          {
            assert round.remaining[i] in pending;
          }
        }
        WaitLoopGone(origin, wake.sys, ctx, round.remaining, rounds + 1);
        WaitLoopMoves(wake.sys, ctx, round.remaining, rounds + 1, "");
        FollowsTransitive(round.sys, wake.sys, out.sys);
        forall i | 0 <= i < |pending| && out.err.None? ensures !Exists(out.sys.world, pending[i].state.uid) {
          if pending[i] in round.remaining {
            var j :| 0 <= j < |round.remaining| && round.remaining[j] == pending[i];
          } else {
            StaysGone(origin, round.sys, out.sys, pending[i]);
          }
        }
      }
    }
  }

  /******* The main theorem *******/

  lemma CordonFirstCordons(s: Sys, p: WritePolicy, parent: Context, opts: NodeOptions)
    requires Valid(s.world)
    ensures var cordoned := CordonFirst(s, p, parent, opts);
            cordoned.result.Success? ==>
              cordoned.result.value != "" && Cordoned(cordoned.sys.world, cordoned.result.value)
  {
    var named := NodeNameOf(s, parent, opts);
    if named.result.Success? {
      var key := Key(Node, "", named.result.value);
      var got := Get(named.sys, parent, key);
      GetFollows(named.sys, parent, key);
      if got.result.Success? {
        var o := Apply(SetUnschedulable(true), got.result.value, got.sys.world.now);
        UpdateMade(got.sys, parent, key, o);
      }
    }
  }

  /** The state of the cluster that the drain's pod list shows. */
  function Listing(cordoned: Sys): World {
    Arrive(cordoned).world
  }

  /** One of the pods the drain reports as skipped, still as the listing showed it up to its uid. */
  ghost predicate WasSkipped(listing: World, w: World, k: Key, result: DrainResult)
    requires k in w.objects
  {
    && k in listing.objects
    && listing.objects[k].uid == w.objects[k].uid
    && k in result.skipped
    && Exempt(listing.objects[k])
  }

  /** An eviction loop that succeeds evicts a permutation of its input. */
  lemma AllEvicted(s: Sys, ctx: Context, plan: seq<Item>)
    requires ctx.deadline.Some? && EvictLoop(s, ctx, plan, [], 0).err.None?
    ensures var evicted := EvictLoop(s, ctx, plan, [], 0).evicted;
            multiset(evicted) == multiset(plan) && forall item :: item in evicted <==> item in plan
  {
    EvictLoopConserves(s, ctx, plan, [], 0);
    var out := EvictLoop(s, ctx, plan, [], 0);
    var evicted := out.evicted;
    var none: seq<Item> := [];
    assert out.left == none && multiset(none) == multiset{};
    assert multiset(evicted) == multiset(evicted) + multiset(out.left);
    assert multiset(evicted) + multiset(out.left) == multiset(none) + multiset(plan) == multiset(plan);
    forall item ensures item in evicted <==> item in plan {
      assert item in evicted <==> item in multiset(evicted);
      assert item in plan <==> item in multiset(plan);
    }
  }

  /** Evicting and then waiting without an error leaves none of the planned pods. */
  lemma PlannedAreGone(listing: World, s: Sys, ctx: Context, plan: seq<Item>)
    requires Descends(listing, s) && ListedIn(listing, plan) && ctx.deadline.Some?
    ensures var evictions := EvictLoop(s, ctx, plan, [], 0);
            var waited := WaitLoop(evictions.sys, ctx, evictions.evicted, 0);
            evictions.err.None? && waited.err.None? ==>
              forall i | 0 <= i < |plan| :: !Exists(waited.sys.world, plan[i].state.uid)
  {
    hide Descends, Holds, Follows, Exists;
    var evictions := EvictLoop(s, ctx, plan, [], 0);
    var waited := WaitLoop(evictions.sys, ctx, evictions.evicted, 0);
    if evictions.err.None? && waited.err.None? {
      AllEvicted(s, ctx, plan);
      EvictLoopMoves(s, ctx, plan, [], 0, "");
      DescendsFurther(listing, s, evictions.sys);
      forall i | 0 <= i < |evictions.evicted|
        ensures evictions.evicted[i].key in listing.objects
             && listing.objects[evictions.evicted[i].key] == evictions.evicted[i].state
      {
        assert evictions.evicted[i] in plan;
      }
      WaitLoopGone(listing, evictions.sys, ctx, evictions.evicted, 0);
      forall i | 0 <= i < |plan| ensures !Exists(waited.sys.world, plan[i].state.uid) {
        assert plan[i] in evictions.evicted;
      }
    }
  }

  /** A list of the pods of a node shows exactly the stored pods bound to it. */
  lemma PodsListed(w: World, node: string, k: Key)
    requires Valid(w) && k in w.objects && OnNode(w.objects[k], node)
    ensures Item(k, w.objects[k]) in Items(w.objects, w.index, PodsOf(node))
  {
    ItemsAreStored(w.objects, w.index, PodsOf(node));
    assert IsListed(w.objects, w.index, PodsOf(node), Item(k, w.objects[k]));
  }

  lemma PickedAreStored(w: World, node: string, opts: NodeOptions)
    requires ArePods(Items(w.objects, w.index, PodsOf(node)))
    ensures ListedIn(w, Pick(Items(w.objects, w.index, PodsOf(node)), node, opts, EvictIt))
  {
    hide Judge, Selects;
    var pods := Items(w.objects, w.index, PodsOf(node));
    ItemsAreStored(w.objects, w.index, PodsOf(node));
    PickedAreJudged(pods, node, opts, EvictIt);
    var plan := Pick(pods, node, opts, EvictIt);
    forall i | 0 <= i < |plan| ensures plan[i].key in w.objects && w.objects[plan[i].key] == plan[i].state {
      assert plan[i] in pods;
      assert IsListed(w.objects, w.index, PodsOf(node), plan[i]);
    }
  }

  /** The plan is made of states of the listing, and every pod of the listing on the node is judged. */
  lemma PlanFromListing(t: Sys, ctx: Context, node: string, opts: NodeOptions)
    requires Valid(t.world)
    requires List(t, ctx, PodsOf(node)).result.Success?
    ensures var w := Listing(t);
            var pods := List(t, ctx, PodsOf(node)).result.value;
            && Valid(w)
            && ArePods(pods)
            && ListedIn(w, Pick(pods, node, opts, EvictIt))
            && forall k | k in w.objects && OnNode(w.objects[k], node) :: Item(k, w.objects[k]) in pods
  {
    hide Valid, Follows, Items, Pick, ArePods, ListedIn;
    var w := Listing(t);
    ListFollows(t, ctx, PodsOf(node));
    FollowsGives(t, Arrive(t));
    ListedArePods(t, ctx, node);
    PickedAreStored(w, node, opts);
    forall k | k in w.objects && OnNode(w.objects[k], node)
      ensures Item(k, w.objects[k]) in List(t, ctx, PodsOf(node)).result.value
    {
      PodsListed(w, node, k);
    }
  }

  /** A listed pod on the node ends up gone, or was skipped. */
  lemma PlannedOrSkipped(t: Sys, ctx: Context, node: string, opts: NodeOptions, k: Key)
    requires Valid(t.world) && ctx.deadline.Some?
    requires DrainCordoned(t, ctx, node, opts).err.None?
    requires k in Listing(t).objects && OnNode(Listing(t).objects[k], node)
    ensures var out := DrainCordoned(t, ctx, node, opts);
            && out.result.Some?
            && ((k in out.result.value.skipped && Exempt(Listing(t).objects[k]))
                || !Exists(out.sys.world, Listing(t).objects[k].uid))
  {
    hide Valid, Later, Exists, Selects;
    var w := Listing(t);
    PlanFromListing(t, ctx, node, opts);
    var listed := List(t, ctx, PodsOf(node));
    var pods := listed.result.value;
    var plan := Pick(pods, node, opts, EvictIt);
    var item := Item(k, w.objects[k]);
    assert item in pods;
    PlanSparesExemptPods(pods, node, opts, item);
    if item in Pick(pods, node, opts, Leave) {
      var i :| 0 <= i < |Pick(pods, node, opts, Leave)| && Pick(pods, node, opts, Leave)[i] == item;
      assert Keys(Pick(pods, node, opts, Leave))[i] == k;
    } else {
      assert item in plan;
      LaterReflexive(w);
      PlannedAreGone(w, listed.sys, ctx, plan);
    }
  }

  lemma DrainCordonedMoves(t: Sys, ctx: Context, node: string, opts: NodeOptions)
    requires Valid(t.world) && ctx.deadline.Some?
    ensures var out := DrainCordoned(t, ctx, node, opts);
            Moves(t, out.sys, node) && Moves(Arrive(t), out.sys, node)
  {
    hide Moves, Valid;
    var listed := List(t, ctx, PodsOf(node));
    var out := DrainCordoned(t, ctx, node, opts);
    ArriveMoves(t, node);
    MovesReflexive(listed.sys, node);
    if listed.result.Success? {
      ListedArePods(t, ctx, node);
      var pods := listed.result.value;
      if Pick(pods, node, opts, Refuse) == [] {
        var evictions := EvictLoop(listed.sys, ctx, Pick(pods, node, opts, EvictIt), [], 0);
        EvictLoopMoves(listed.sys, ctx, Pick(pods, node, opts, EvictIt), [], 0, node);
        if evictions.err.None? {
          WaitLoopMoves(evictions.sys, ctx, evictions.evicted, 0, node);
          MovesTransitive(listed.sys, evictions.sys, out.sys, node);
        }
      }
    }
    MovesTransitive(t, listed.sys, out.sys, node);
  }

  /** From the cordon on nobody else uncordons or removes the node. */
  ghost predicate NobodyUncordons(cordoned: CordonOutcome) {
    cordoned.result.Success? ==>
      forall i | 0 <= i < |cordoned.sys.script| ::
        KeepsCordoned(cordoned.sys.script[i].steps, cordoned.result.value)
  }

  /** The node is cordoned, and every pod on it is one the result names as skipped, or was bound after the listing
      as a DaemonSet or mirror pod. */
  ghost predicate HoldsOnlyExemptPods(listing: World, w: World, node: string, result: DrainResult) {
    && result.nodeName == node
    && Cordoned(w, node)
    && forall k | k in w.objects && OnNode(w.objects[k], node) ::
         WasSkipped(listing, w, k, result) || BoundAsExempt(listing, w, w.objects[k].uid, node)
  }

  /** When DrainNode returns no error, only exempt pods are left on the node, whatever others did in between;
      provided that from the cordon on nobody else uncordons or removes the node. */
  lemma DrainLeavesOnlyExemptPods(s: Sys, p: WritePolicy, parent: Context, opts: NodeOptions)
    requires Valid(s.world)
    ensures var out := DrainAll(s, p, parent, opts);
            var cordoned := CordonFirst(s, p, parent, opts);
            out.err.None? && NobodyUncordons(cordoned) ==>
              && cordoned.result.Success?
              && out.result.Some?
              && HoldsOnlyExemptPods(Listing(cordoned.sys), out.sys.world, cordoned.result.value, out.result.value)
  {
    hide Exempt, ManagedBy, NodeNameOf, Rewrite, DrainCordoned, Valid, Later, IsExemptBinding;
    var out := DrainAll(s, p, parent, opts);
    var cordoned := CordonFirst(s, p, parent, opts);
    CordonFirstFollows(s, p, parent, opts);
    if out.err.None? && NobodyUncordons(cordoned) {
      var t, node := cordoned.sys, cordoned.result.value;
      var ctx := DrainContext(parent, t.world, opts);
      var listing := Listing(t);
      CordonFirstCordons(s, p, parent, opts);
      assert Undisturbed(t, node);
      ArriveMoves(t, node);
      DrainCordonedMoves(t, ctx, node, opts);
      DrainNames(t, ctx, node, opts);
      assert Undisturbed(Arrive(t), node) && Arrivals(listing, out.sys.world, node);
      forall k | k in out.sys.world.objects && OnNode(out.sys.world.objects[k], node)
        ensures || WasSkipped(listing, out.sys.world, k, out.result.value)
                || BoundAsExempt(listing, out.sys.world, out.sys.world.objects[k].uid, node)
      {
        if !BoundAsExempt(listing, out.sys.world, out.sys.world.objects[k].uid, node) {
          assert Stayed(listing, out.sys.world, k, node);
          PlannedOrSkipped(t, ctx, node, opts, k);
        }
      }
    }
  }

  lemma DrainNames(t: Sys, ctx: Context, node: string, opts: NodeOptions)
    requires Valid(t.world) && ctx.deadline.Some?
    ensures var out := DrainCordoned(t, ctx, node, opts); out.result.Some? && out.result.value.nodeName == node
  {
  }
}
