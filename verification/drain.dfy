/** Draining a node: cordon, list, plan, evict with retries, wait (pkg/capi/drain.go). */
module Drain {
  import opened Wrappers
  import opened Policy
  import opened Store
  import opened Interleaving
  import opened Changes
  import opened Capi
  import opened DrainPlanning

  /******* Evictions *******/

  datatype RoundOutcome =
    RoundOutcome(sys: Sys, evicted: seq<Item>, refused: seq<Item>, untried: seq<Item>, err: Option<Error>)

  predicate Expired(ctx: Context, w: World) {
    ctx.deadline.Some? && w.now >= ctx.deadline.value
  }

  /** One pass over the pending pods; the untried pods start with the one whose eviction failed. */
  function EvictRound(s: Sys, ctx: Context, todo: seq<Item>, evicted: seq<Item>, refused: seq<Item>): (r: RoundOutcome)
    ensures r.sys.world.now >= s.world.now
    ensures todo != [] && Expired(ctx, s.world) ==> r.err.Some?
    decreases |todo|
  {
    if todo == [] then RoundOutcome(s, evicted, refused, [], None)
    else
      var reply := Evict(s, ctx, todo[0].key);
      match reply.answer
      case Accepted => EvictRound(reply.sys, ctx, todo[1..], evicted + [todo[0]], refused)
      case Missing => EvictRound(reply.sys, ctx, todo[1..], evicted + [todo[0]], refused)
      case TooMany => EvictRound(reply.sys, ctx, todo[1..], evicted, refused + [todo[0]])
      case Unanswered => RoundOutcome(reply.sys, evicted, refused, todo, Some(Api(Unavailable)))
  }

  /** How long the deadline still leaves. */
  function TimeLeft(ctx: Context, w: World): nat
    requires ctx.deadline.Some?
  {
    if w.now < ctx.deadline.value then ctx.deadline.value - w.now else 0
  }

  /** left are the pods of the last round that were refused or never tried; rounds counts the passes. */
  datatype EvictOutcome = EvictOutcome(sys: Sys, evicted: seq<Item>, left: seq<Item>, err: Option<Error>, rounds: nat)

  function EvictLoop(s: Sys, ctx: Context, pending: seq<Item>, evicted: seq<Item>, rounds: nat): EvictOutcome
    requires ctx.deadline.Some?
    decreases TimeLeft(ctx, s.world)
  {
    var round := EvictRound(s, ctx, pending, evicted, []);
    var left := round.refused + round.untried;
    if round.err.Some? || round.refused == [] then EvictOutcome(round.sys, round.evicted, left, round.err, rounds + 1)
    else
      var wake := Select(round.sys, ctx);
      if !wake.timer then EvictOutcome(wake.sys, round.evicted, left, Some(TimedOut), rounds + 1)
      else EvictLoop(wake.sys, ctx, round.refused, round.evicted, rounds + 1)
  }

  /******* Waiting *******/

  datatype WaitRoundOutcome = WaitRoundOutcome(sys: Sys, remaining: seq<Item>, err: Option<Error>)

  /** One look at every pending pod; a name now held by another pod counts as gone. */
  function WaitRound(s: Sys, ctx: Context, todo: seq<Item>, remaining: seq<Item>): (r: WaitRoundOutcome)
    ensures r.sys.world.now >= s.world.now
    ensures todo != [] && Expired(ctx, s.world) ==> r.err.Some?
    decreases |todo|
  {
    if todo == [] then WaitRoundOutcome(s, remaining, None)
    else
      var reply := Get(s, ctx, todo[0].key);
      match reply.result
      case Failure(error) =>
        if error == NotFound then WaitRound(reply.sys, ctx, todo[1..], remaining)
        else WaitRoundOutcome(reply.sys, remaining, Some(Api(error)))
      case Success(current) =>
        WaitRound(reply.sys, ctx, todo[1..],
                  if current.uid == todo[0].state.uid then remaining + [todo[0]] else remaining)
  }

  datatype WaitOutcome = WaitOutcome(sys: Sys, err: Option<Error>, rounds: nat)

  function WaitLoop(s: Sys, ctx: Context, pending: seq<Item>, rounds: nat): WaitOutcome
    requires ctx.deadline.Some?
    decreases TimeLeft(ctx, s.world)
  {
    var round := WaitRound(s, ctx, pending, []);
    if round.err.Some? || round.remaining == [] then WaitOutcome(round.sys, round.err, rounds + 1)
    else
      var wake := Select(round.sys, ctx);
      if !wake.timer then WaitOutcome(wake.sys, Some(TimedOut), rounds + 1)
      else WaitLoop(wake.sys, ctx, round.remaining, rounds + 1)
  }

  /******* The drain *******/

  const DEFAULT_DRAIN_TIMEOUT: nat := 120_000_000_000

  function TimeoutOf(opts: NodeOptions): nat {
    if opts.timeout <= 0 then DEFAULT_DRAIN_TIMEOUT else opts.timeout
  }

  datatype DrainResult = DrainResult(nodeName: string, evicted: seq<Key>, skipped: seq<Key>)

  datatype DrainOutcome = DrainOutcome(sys: Sys, result: Option<DrainResult>, err: Option<Error>, rounds: nat)

  datatype CordonOutcome = CordonOutcome(sys: Sys, result: Result<string, Error>)

  /** The first half: name the node and cordon it. */
  function CordonFirst(s: Sys, p: WritePolicy, parent: Context, opts: NodeOptions): CordonOutcome
    requires Valid(s.world)
  {
    var named := NodeNameOf(s, parent, opts);
    if named.result.Failure? then CordonOutcome(named.sys, named.result)
    else
      var cordoned := Rewrite(named.sys, p, parent, Key(Node, "", named.result.value), SetUnschedulable(true));
      CordonOutcome(cordoned.sys, if cordoned.err.Some? then Failure(cordoned.err.value) else named.result)
  }

  function PodsOf(node: string): Query {
    Query(Pod, "", "", node)
  }

  /** The second half: everything under the drain's own deadline. */
  function DrainCordoned(s: Sys, ctx: Context, node: string, opts: NodeOptions): DrainOutcome
    requires Valid(s.world) && ctx.deadline.Some?
  {
    var listed := List(s, ctx, PodsOf(node));
    var result := DrainResult(node, [], []);
    if listed.result.Failure? then DrainOutcome(listed.sys, Some(result), Some(Api(listed.result.error)), 0)
    else
      var pods := listed.result.value;
      ListedArePods(s, ctx, node);
      var skipped := Keys(Pick(pods, node, opts, Leave));
      if Pick(pods, node, opts, Refuse) != [] then
        DrainOutcome(listed.sys, Some(result.(skipped := skipped)), Some(Invalid), 0)
      else
        var evictions := EvictLoop(listed.sys, ctx, Pick(pods, node, opts, EvictIt), [], 0);
        var report := Some(DrainResult(node, Keys(evictions.evicted), skipped));
        if evictions.err.Some? then DrainOutcome(evictions.sys, report, evictions.err, evictions.rounds)
        else
          var waited := WaitLoop(evictions.sys, ctx, evictions.evicted, 0);
          DrainOutcome(waited.sys, report, waited.err, evictions.rounds + waited.rounds)
  }

  function DrainContext(parent: Context, w: World, opts: NodeOptions): (ctx: Context)
    ensures ctx.deadline.Some? && ctx.deadline.value <= w.now + TimeoutOf(opts)
  {
    WithTimeout(parent, w, TimeoutOf(opts))
  }

  function DrainAll(s: Sys, p: WritePolicy, parent: Context, opts: NodeOptions): DrainOutcome
    requires Valid(s.world)
  {
    var cordoned := CordonFirst(s, p, parent, opts);
    CordonFirstFollows(s, p, parent, opts);
    match cordoned.result
    case Failure(error) => DrainOutcome(cordoned.sys, None, Some(error), 0)
    case Success(node) =>
      DrainCordoned(cordoned.sys, DrainContext(parent, cordoned.sys.world, opts), node, opts)
  }

  lemma CordonFirstFollows(s: Sys, p: WritePolicy, parent: Context, opts: NodeOptions)
    requires Valid(s.world)
    ensures Follows(s, CordonFirst(s, p, parent, opts).sys) && Valid(CordonFirst(s, p, parent, opts).sys.world)
  {
    hide Follows, Valid;
    var named := NodeNameOf(s, parent, opts);
    NodeNameOfFollows(s, parent, opts);
    FollowsGives(s, named.sys);
    if named.result.Success? {
      var key := Key(Node, "", named.result.value);
      RewriteFollows(named.sys, p, parent, key, SetUnschedulable(true));
      FollowsTransitive(s, named.sys, Rewrite(named.sys, p, parent, key, SetUnschedulable(true)).sys);
    }
    FollowsGives(s, CordonFirst(s, p, parent, opts).sys);
  }

  lemma ListedArePods(s: Sys, ctx: Context, node: string)
    requires Valid(s.world)
    ensures var listed := List(s, ctx, PodsOf(node)); listed.result.Success? ==> ArePods(listed.result.value)
  {
    hide Later, Recorded;
    ListFollows(s, ctx, PodsOf(node));
    var w := Arrive(s).world;
    ItemsAreStored(w.objects, w.index, PodsOf(node));
    var items := Items(w.objects, w.index, PodsOf(node));
    forall i | 0 <= i < |items| ensures items[i].state.body.PodBody? {
      assert IsListed(w.objects, w.index, PodsOf(node), items[i]);
    }
  }

  /******* The methods *******/

  lemma EvictKeepsValid(s: Sys, ctx: Context, key: Key)
    requires Valid(s.world)
    ensures Valid(Evict(s, ctx, key).sys.world)
  {
    EvictFollows(s, ctx, key);
  }

  lemma SelectKeepsValid(s: Sys, ctx: Context)
    requires Valid(s.world)
    ensures Valid(Select(s, ctx).sys.world)
  {
    SelectFollows(s, ctx);
  }

  /** The inner loop of evictPods. */
  method EvictPending(c: Client, ctx: Context, pending: seq<Item>, before: seq<Item>)
    returns (evicted: seq<Item>, refused: seq<Item>, err: Option<Error>)
    requires c.Ready()
    modifies c
    ensures c.Ready()
    ensures var round := EvictRound(old(c.sys), ctx, pending, before, []);
            c.sys == round.sys && evicted == round.evicted && refused == round.refused && err == round.err
  {
    hide Valid;
    evicted, refused := before, [];
    var i := 0;
    while i < |pending|
      invariant c.Ready() && i <= |pending|
      invariant EvictRound(c.sys, ctx, pending[i..], evicted, refused) ==
                EvictRound(old(c.sys), ctx, pending, before, [])
    {
      assert pending[i..][1..] == pending[i + 1..];
      EvictKeepsValid(c.sys, ctx, pending[i].key);
      var reply := Evict(c.sys, ctx, pending[i].key);
      c.sys := reply.sys;
      match reply.answer {
        case Accepted => evicted := evicted + [pending[i]];
        case Missing => evicted := evicted + [pending[i]];
        case TooMany => refused := refused + [pending[i]];
        case Unanswered => return evicted, refused, Some(Api(Unavailable));
      }
      i := i + 1;
    }
    err := None;
  }

  method EvictPods(c: Client, ctx: Context, pods: seq<Item>)
    returns (evicted: seq<Item>, err: Option<Error>, ghost rounds: nat)
    requires c.Ready() && ctx.deadline.Some?
    modifies c
    ensures c.Ready()
    ensures var out := EvictLoop(old(c.sys), ctx, pods, [], 0);
            c.sys == out.sys && evicted == out.evicted && err == out.err && rounds == out.rounds
  {
    hide Valid;
    evicted, rounds := [], 0;
    var pending := pods;
    while true
      invariant c.Ready()
      invariant EvictLoop(c.sys, ctx, pending, evicted, rounds) == EvictLoop(old(c.sys), ctx, pods, [], 0)
      decreases TimeLeft(ctx, c.sys.world)
    {
      var more, refused, failure := EvictPending(c, ctx, pending, evicted);
      evicted := more;
      if failure.Some? || refused == [] { return evicted, failure, rounds + 1; }
      SelectKeepsValid(c.sys, ctx);
      var wake := Select(c.sys, ctx);
      c.sys := wake.sys;
      if !wake.timer { return evicted, Some(TimedOut), rounds + 1; }
      pending, rounds := refused, rounds + 1;
    }
  }

  method WaitForPodsGone(c: Client, ctx: Context, pods: seq<Item>) returns (err: Option<Error>, ghost rounds: nat)
    requires c.Ready() && ctx.deadline.Some?
    modifies c
    ensures c.Ready()
    ensures WaitOutcome(c.sys, err, rounds) == WaitLoop(old(c.sys), ctx, pods, 0)
  {
    hide Valid;
    rounds := 0;
    var pending := pods;
    while true
      invariant c.Ready()
      invariant WaitLoop(c.sys, ctx, pending, rounds) == WaitLoop(old(c.sys), ctx, pods, 0)
      decreases TimeLeft(ctx, c.sys.world)
    {
      ghost var round := WaitRound(c.sys, ctx, pending, []);
      var remaining: seq<Item> := [];
      var i := 0;
      while i < |pending|
        invariant c.Ready() && i <= |pending|
        invariant WaitRound(c.sys, ctx, pending[i..], remaining) == round
      {
        assert pending[i..][1..] == pending[i + 1..];
        var current := c.Fetch(ctx, pending[i].key);
        if current.Failure? {
          if current.error != NotFound { return Some(Api(current.error)), rounds + 1; }
        } else if current.value.uid == pending[i].state.uid {
          remaining := remaining + [pending[i]];
        }
        i := i + 1;
      }
      if remaining == [] { return None, rounds + 1; }
      SelectKeepsValid(c.sys, ctx);
      var wake := Select(c.sys, ctx);
      c.sys := wake.sys;
      if !wake.timer { return Some(TimedOut), rounds + 1; }
      pending, rounds := remaining, rounds + 1;
    }
  }

  method DrainNode(c: Client, parent: Context, opts: NodeOptions)
    returns (result: Option<DrainResult>, err: Option<Error>, ghost rounds: nat)
    requires c.Ready()
    modifies c
    ensures c.Ready()
    ensures DrainOutcome(c.sys, result, err, rounds) == DrainAll(old(c.sys), c.policy, parent, opts)
  {
    hide Valid;
    var named := c.ResolveNodeName(parent, opts);
    if named.Failure? { return None, Some(named.error), 0; }
    var nodeName := named.value;
    err := c.SetNodeUnschedulable(parent, nodeName, true);
    if err.Some? { return None, err, 0; }
    var report := DrainResult(nodeName, [], []);
    var timeout := if opts.timeout <= 0 then DEFAULT_DRAIN_TIMEOUT else opts.timeout;
    var ctx := WithTimeout(parent, c.sys.world, timeout);
    ListedArePods(c.sys, ctx, nodeName);
    ListKeepsValid(c.sys, ctx, PodsOf(nodeName));
    var listed := List(c.sys, ctx, PodsOf(nodeName));
    c.sys := listed.sys;
    if listed.result.Failure? { return Some(report), Some(Api(listed.result.error)), 0; }
    var evict, skipped, refusals := DrainPlan(listed.result.value, nodeName, opts);
    report := report.(skipped := skipped);
    if refusals != [] { return Some(report), Some(Invalid), 0; }
    var evicted, failure, evictRounds := EvictPods(c, ctx, evict);
    report := report.(evicted := Keys(evicted));
    if failure.Some? { return Some(report), failure, evictRounds; }
    var unfinished, waitRounds := WaitForPodsGone(c, ctx, evicted);
    return Some(report), unfinished, evictRounds + waitRounds;
  }
}
