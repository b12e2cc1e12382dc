/** The cache of per-caller clients: two critical sections with the building of the client between them, run by
    any number of concurrent callers (pkg/capi/bearer.go). */
module Bearer {
  import opened Wrappers
  import opened Policy

  const DEFAULT_CLIENT_TTL: nat := 300_000_000_000
  const MAX_CLIENT_TTL: nat := 600_000_000_000
  const DEFAULT_MAX_CLIENTS: nat := 1000

  /** The SHA-256 digest of a token, taken as injective. */
  datatype Digest = Digest(token: string)

  /** A client that authenticates as the bearer of token. */
  datatype BearerClient = BearerClient(token: string, policy: WritePolicy)

  datatype CacheEntry = CacheEntry(client: BearerClient, expires: int)

  datatype BearerError = NoBearerToken | BuildFailed

  type Cache = map<Digest, CacheEntry>

  /** The exp claim of a token, if it can be read. */
  type Expiries = string -> Option<int>

  function ClientExpiry(exp: Option<int>, now: nat): int {
    var limit := now + MAX_CLIENT_TTL;
    if exp.None? then now + DEFAULT_CLIENT_TTL
    else if exp.value < limit then exp.value
    else limit
  }

  /** An entry sized at captured lives ten minutes at most, five for an opaque token, and never past a readable
      exp claim; with one it lives as long as that allows. Times are in nanoseconds. */
  lemma ClientExpiryIsTheEarlierLimit(exp: Option<int>, now: nat)
    ensures ClientExpiry(exp, now) <= now + 600_000_000_000
    ensures exp.None? ==> ClientExpiry(exp, now) == now + 300_000_000_000
    ensures exp.Some? ==> ClientExpiry(exp, now) <= exp.value
    ensures exp.Some? ==> ClientExpiry(exp, now) == exp.value || ClientExpiry(exp, now) == now + 600_000_000_000
  {
  }

  /******* The two critical sections *******/

  function Hit(cache: Cache, token: string, now: nat): Option<BearerClient> {
    if Digest(token) in cache && now < cache[Digest(token)].expires then Some(cache[Digest(token)].client) else None
  }

  function Swept(cache: Cache, now: nat): Cache {
    map k | k in cache && now < cache[k].expires :: cache[k]
  }

  function Inserted(cache: Cache, maxEntries: nat, exp: Option<int>, client: BearerClient, now: nat): Cache {
    var swept := if |cache| >= maxEntries then Swept(cache, now) else cache;
    if |swept| < maxEntries then swept[Digest(client.token) := CacheEntry(client, ClientExpiry(exp, now))] else swept
  }

  /** There is a free place, or a sweep at now frees one. */
  ghost predicate HasRoom(cache: Cache, maxEntries: nat, now: nat) {
    maxEntries > 0 && (|cache| < maxEntries || exists k :: k in cache && cache[k].expires <= now)
  }

  /** after is cache with entry under key if there is room. A full cache loses what has expired at now, and so
      everything expired that is left is the entry itself; a cache with a free place loses nothing. */
  ghost predicate IsInsertion(
    cache: Cache, maxEntries: nat, key: Digest, entry: CacheEntry, now: nat, after: Cache)
  {
    && (HasRoom(cache, maxEntries, now) ==> key in after && after[key] == entry)
    && (!HasRoom(cache, maxEntries, now) ==> after == cache)
    && (forall k | k != key ::
          k in after <==> k in cache && (|cache| < maxEntries || now < cache[k].expires))
    && (forall k | k != key && k in after :: after[k] == cache[k])
  }

  lemma InsertedIsInsertion(cache: Cache, maxEntries: nat, client: BearerClient, exp: Option<int>, now: nat)
    requires |cache| <= maxEntries
    ensures IsInsertion(cache, maxEntries, Digest(client.token), CacheEntry(client, ClientExpiry(exp, now)), now,
                        Inserted(cache, maxEntries, exp, client, now))
  {
    hide ClientExpiry, HasRoom;
    SweepFreesAPlace(cache, maxEntries, now);
  }

  lemma SweepFreesAPlace(cache: Cache, maxEntries: nat, now: nat)
    requires |cache| <= maxEntries
    ensures var swept := if |cache| >= maxEntries then Swept(cache, now) else cache;
            && (HasRoom(cache, maxEntries, now) <==> |swept| < maxEntries)
            && (!HasRoom(cache, maxEntries, now) ==> swept == cache)
  {
    var swept := Swept(cache, now);
    if k :| k in cache && cache[k].expires <= now {
      SubsetIsSmaller(swept.Keys, cache.Keys - {k});
      assert |swept| == |swept.Keys| && |cache| == |cache.Keys| && |cache.Keys - {k}| == |cache.Keys| - 1;
    } else {
      assert swept == cache;
    }
  }

  class BearerClientFactory {
    const maxEntries: nat
    const expiries: Expiries
    var policy: WritePolicy
    var cache: Cache

    constructor (expiries: Expiries)
      ensures this.expiries == expiries && maxEntries == DEFAULT_MAX_CLIENTS == 1000 && cache == map[]
      ensures policy == WritePolicy(false, false, false)
    {
      this.expiries := expiries;
      maxEntries := DEFAULT_MAX_CLIENTS;
      policy := WritePolicy(false, false, false);
      cache := map[];
    }

    method SetWritePolicy(p: WritePolicy)
      modifies this`policy
      ensures policy == p
    {
      policy := p;
    }

    /** The first critical section. */
    method LookUp(token: string, now: nat) returns (hit: Option<BearerClient>)
      ensures hit == Hit(cache, token, now)
      ensures hit.Some? <==> Digest(token) in cache && now < cache[Digest(token)].expires
      ensures hit.Some? ==> hit.value == cache[Digest(token)].client
    {
      var key := Digest(token);
      if key in cache && now < cache[key].expires { return Some(cache[key].client); }
      return None;
    }

    /** The sweep removes the expired entries and no others. Go leaves the order of the loop over the map open, and
        so does this. */
    method Sweep(now: nat)
      modifies this`cache
      ensures cache == Swept(old(cache), now)
      ensures forall k :: k in cache <==> k in old(cache) && now < old(cache)[k].expires
      ensures forall k | k in cache :: cache[k] == old(cache)[k]
    {
      var todo := cache.Keys;
      while todo != {}
        invariant todo <= old(cache).Keys
        invariant cache == map k | k in old(cache) && (k in todo || now < old(cache)[k].expires) :: old(cache)[k]
        decreases todo
      {
        var k :| k in todo;
        if !(now < cache[k].expires) { cache := cache - {k}; }
        todo := todo - {k};
      }
    }

    /** The second critical section. */
    method Insert(client: BearerClient, now: nat)
      modifies this`cache
      ensures cache == Inserted(old(cache), maxEntries, expiries(client.token), client, now)
      ensures |old(cache)| <= maxEntries ==>
                var entry := CacheEntry(client, ClientExpiry(expiries(client.token), now));
                IsInsertion(old(cache), maxEntries, Digest(client.token), entry, now, cache)
    {
      if |cache| <= maxEntries { InsertedIsInsertion(cache, maxEntries, client, expiries(client.token), now); }
      if |cache| >= maxEntries { Sweep(now); }
      if |cache| < maxEntries {
        cache := cache[Digest(client.token) := CacheEntry(client, ClientExpiry(expiries(client.token), now))];
      }
    }

    /** One caller on its own; builds tells whether the client can be built. */
    method ClientFor(token: string, now: nat, builds: bool) returns (r: Result<BearerClient, BearerError>)
      modifies this`cache
      ensures token == "" ==> r == Failure(NoBearerToken) && cache == old(cache)
      ensures token != "" && Hit(old(cache), token, now).Some? ==>
                r == Success(Hit(old(cache), token, now).value) && cache == old(cache)
      ensures token != "" && Hit(old(cache), token, now).None? ==>
                r == Uncached(token, policy, builds)
                && cache == if builds then
                              Inserted(old(cache), maxEntries, expiries(token), BearerClient(token, policy), now)
                            else old(cache)
    {
      if token == "" { return Failure(NoBearerToken); }
      var hit := LookUp(token, now);
      if hit.Some? { return Success(hit.value); }
      if !builds { return Failure(BuildFailed); }
      var client := BearerClient(token, policy);
      Insert(client, now);
      return Success(client);
    }
  }

  /** ClientFor without a cache. */
  function Uncached(token: string, policy: WritePolicy, builds: bool): Result<BearerClient, BearerError> {
    if token == "" then Failure(NoBearerToken)
    else if builds then Success(BearerClient(token, policy))
    else Failure(BuildFailed)
  }

  /******* Concurrent callers *******/

  /** Where a caller is. now is the time it captured before it took the lock. */
  datatype Phase =
    | Idle
    | Called(token: string)
    | Captured(token: string, now: nat)
    | Missed(token: string, now: nat)
    | Built(token: string, now: nat, client: BearerClient)
    | Returned(token: string, result: Result<BearerClient, BearerError>)

  datatype System = System(clock: nat, policy: WritePolicy, cache: Cache, threads: map<nat, Phase>)

  /** One atomic step: of a caller, of the clock, or of the program's setup. */
  datatype Action =
    | Call(id: nat, token: string)
    | Capture(id: nat)
    | LookUp(id: nat)
    | Build(id: nat, builds: bool)
    | Insert(id: nat)
    | Tick(duration: nat)
    | SetPolicy(policy: WritePolicy)

  function PhaseOf(s: System, id: nat): Phase {
    if id in s.threads then s.threads[id] else Idle
  }

  function Move(s: System, id: nat, phase: Phase): System {
    s.(threads := s.threads[id := phase])
  }

  /** A step that is not enabled changes nothing. */
  function Step(s: System, maxEntries: nat, expiries: Expiries, a: Action): System {
    match a
    case Tick(duration) => s.(clock := s.clock + duration)
    case SetPolicy(policy) => s.(policy := policy)
    case Call(id, token) =>
      if PhaseOf(s, id).Idle? || PhaseOf(s, id).Returned? then
        Move(s, id, if token == "" then Returned(token, Failure(NoBearerToken)) else Called(token))
      else s
    case Capture(id) =>
      (match PhaseOf(s, id)
       case Called(token) => Move(s, id, Captured(token, s.clock))
       case _ => s)
    case LookUp(id) =>
      (match PhaseOf(s, id)
       case Captured(token, now) =>
         (match Hit(s.cache, token, now)
          case Some(client) => Move(s, id, Returned(token, Success(client)))
          case None => Move(s, id, Missed(token, now)))
       case _ => s)
    case Build(id, builds) =>
      (match PhaseOf(s, id)
       case Missed(token, now) =>
         Move(s, id,
              if builds then Built(token, now, BearerClient(token, s.policy))
              else Returned(token, Failure(BuildFailed)))
       case _ => s)
    case Insert(id) =>
      (match PhaseOf(s, id)
       case Built(token, now, client) =>
         Move(s.(cache := Inserted(s.cache, maxEntries, expiries(token), client, now)), id,
              Returned(token, Success(client)))
       case _ => s)
  }

  function Execute(s: System, maxEntries: nat, expiries: Expiries, actions: seq<Action>): System {
    if actions == [] then s
    else
      var n := |actions| - 1;
      Step(Execute(s, maxEntries, expiries, actions[..n]), maxEntries, expiries, actions[n])
  }

  function Initial(clock: nat, policy: WritePolicy): System {
    System(clock, policy, map[], map[])
  }

  datatype Setup = Setup(clock: nat, policy: WritePolicy, maxEntries: nat, expiries: Expiries)

  /** The state after these steps, from an empty cache. */
  function Reached(setup: Setup, actions: seq<Action>): System {
    Execute(Initial(setup.clock, setup.policy), setup.maxEntries, setup.expiries, actions)
  }

  /******* Invariants *******/

  /** The entry belongs to the token under whose digest it is kept. */
  predicate IsOwn(key: Digest, entry: CacheEntry) {
    entry.client.token == key.token != ""
  }

  ghost predicate IsSound(phase: Phase, clock: nat) {
    match phase
    case Idle => true
    case Called(token) => token != ""
    case Captured(token, now) => token != "" && now <= clock
    case Missed(token, now) => token != "" && now <= clock
    case Built(token, now, client) => token != "" && now <= clock && client.token == token
    case Returned(token, result) =>
      && (token == "" <==> result == Failure(NoBearerToken))
      && (result.Success? ==> result.value.token == token)
  }

  ghost predicate Inv(s: System, maxEntries: nat) {
    && |s.cache| <= maxEntries
    && (forall k | k in s.cache :: IsOwn(k, s.cache[k]))
    && (forall id | id in s.threads :: IsSound(s.threads[id], s.clock))
  }

  lemma SweptIsSmaller(cache: Cache, now: nat)
    ensures |Swept(cache, now)| <= |cache|
  {
    SubsetIsSmaller(Swept(cache, now).Keys, cache.Keys);
    assert |Swept(cache, now)| == |Swept(cache, now).Keys| && |cache| == |cache.Keys|;
  }

  lemma {:induction false} SubsetIsSmaller<T>(a: set<T>, b: set<T>)
    requires a <= b
    ensures |a| <= |b|
  {
    assert b == a + (b - a);
  }

  lemma InsertedIsBounded(cache: Cache, maxEntries: nat, exp: Option<int>, client: BearerClient, now: nat)
    requires |cache| <= maxEntries
    ensures |Inserted(cache, maxEntries, exp, client, now)| <= maxEntries
  {
    SweptIsSmaller(cache, now);
    var swept := if |cache| >= maxEntries then Swept(cache, now) else cache;
    if |swept| < maxEntries {
      var key := Digest(client.token);
      var after := swept[key := CacheEntry(client, ClientExpiry(exp, now))];
      assert after.Keys == swept.Keys + {key};
      assert |after| == |after.Keys| && |swept| == |swept.Keys|;
    }
  }

  /** What the second critical section can do to a key. */
  lemma InsertedEntries(cache: Cache, maxEntries: nat, exp: Option<int>, client: BearerClient, now: nat, k: Digest)
    ensures var after := Inserted(cache, maxEntries, exp, client, now);
            && (k in after ==>
                  || (k in cache && after[k] == cache[k])
                  || (k == Digest(client.token) && after[k] == CacheEntry(client, ClientExpiry(exp, now))))
            && (k in cache && k !in after ==> cache[k].expires <= now)
  {
  }

  /** Every atomic step of every caller keeps the invariant: in particular the cache never exceeds maxEntries,
      although the two critical sections of a call interleave with everybody else's. */
  lemma StepKeepsInv(s: System, maxEntries: nat, expiries: Expiries, a: Action)
    requires Inv(s, maxEntries)
    ensures Inv(Step(s, maxEntries, expiries, a), maxEntries)
  {
    hide Inserted, ClientExpiry;
    var t := Step(s, maxEntries, expiries, a);
    if a.Insert? && PhaseOf(s, a.id).Built? {
      var phase := PhaseOf(s, a.id);
      InsertedIsBounded(s.cache, maxEntries, expiries(phase.token), phase.client, phase.now);
      forall k | k in t.cache ensures IsOwn(k, t.cache[k]) {
        InsertedEntries(s.cache, maxEntries, expiries(phase.token), phase.client, phase.now, k);
      }
    }
  }

  lemma {:induction false} EveryInterleavingKeepsInv(setup: Setup, actions: seq<Action>)
    ensures Inv(Reached(setup, actions), setup.maxEntries)
  {
    hide Inv;
    if actions == [] {
      InitialInv(setup);
    } else {
      var n := |actions| - 1;
      EveryInterleavingKeepsInv(setup, actions[..n]);
      StepKeepsInv(Reached(setup, actions[..n]), setup.maxEntries, setup.expiries, actions[n]);
    }
  }

  lemma InitialInv(setup: Setup)
    ensures Inv(Initial(setup.clock, setup.policy), setup.maxEntries)
  {
  }

  /** In every reached state, an Insert step with room, or with an entry to sweep at the time its call captured,
      leaves the new client under its token's digest: from then on a call for that token that captured a time
      before the entry's expiry hits. Nothing else is stored, and a full cache keeps no other entry that was expired
      at that time. */
  lemma InsertStoresTheClient(setup: Setup, actions: seq<Action>, id: nat, later: nat)
    requires PhaseOf(Reached(setup, actions), id).Built?
    ensures var s, t := Reached(setup, actions), Reached(setup, actions + [Insert(id)]);
            var phase := PhaseOf(s, id);
            var key, entry := Digest(phase.token),
                              CacheEntry(phase.client, ClientExpiry(setup.expiries(phase.token), phase.now));
            && IsInsertion(s.cache, setup.maxEntries, key, entry, phase.now, t.cache)
            && PhaseOf(t, id) == Returned(phase.token, Success(phase.client))
            && (HasRoom(s.cache, setup.maxEntries, phase.now) && later < entry.expires ==>
                  Hit(t.cache, phase.token, later) == Some(phase.client))
  {
    hide Inserted, ClientExpiry, Reached, IsInsertion;
    var s := Reached(setup, actions);
    var phase := PhaseOf(s, id);
    EveryInterleavingKeepsInv(setup, actions);
    ReachedStep(setup, actions, Insert(id));
    assert IsSound(s.threads[id], s.clock);
    InsertedIsInsertion(s.cache, setup.maxEntries, phase.client, setup.expiries(phase.token), phase.now);
    if HasRoom(s.cache, setup.maxEntries, phase.now) {
      InsertionWithRoomStores(s.cache, setup.maxEntries, Digest(phase.token),
                              CacheEntry(phase.client, ClientExpiry(setup.expiries(phase.token), phase.now)), phase.now,
                              Reached(setup, actions + [Insert(id)]).cache);
    }
  }

  lemma InsertionWithRoomStores(
    cache: Cache, maxEntries: nat, key: Digest, entry: CacheEntry, now: nat, after: Cache)
    requires IsInsertion(cache, maxEntries, key, entry, now, after) && HasRoom(cache, maxEntries, now)
    ensures key in after && after[key] == entry
  {
  }

  /** No step removes an entry that is live at the shared clock, although the sweep compares with a time
      captured before it took the lock. */
  lemma LiveEntriesStay(s: System, maxEntries: nat, expiries: Expiries, a: Action, k: Digest)
    requires Inv(s, maxEntries)
    requires k in s.cache && s.clock < s.cache[k].expires
    ensures k in Step(s, maxEntries, expiries, a).cache
  {
    hide Inserted;
    if a.Insert? && PhaseOf(s, a.id).Built? {
      var phase := PhaseOf(s, a.id);
      InsertedEntries(s.cache, maxEntries, expiries(phase.token), phase.client, phase.now, k);
    }
  }

  /******* Who made an entry, and when *******/

  /** The i-th action is the Insert of the call that built this client after capturing now. */
  ghost predicate IsMaker(setup: Setup, actions: seq<Action>, i: nat, token: string, now: nat, client: BearerClient) {
    && i < |actions|
    && actions[i].Insert?
    && PhaseOf(Reached(setup, actions[..i]), actions[i].id) == Built(token, now, client)
  }

  /** The caller is inside a call for token, between its Capture of now and its return. */
  predicate IsInside(phase: Phase, token: string, now: nat) {
    (phase.Captured? || phase.Missed? || phase.Built?) && phase.token == token && phase.now == now
  }

  /** The c-th action is the Capture of the call id is still inside: it read now from the shared clock. */
  ghost predicate IsCapture(setup: Setup, actions: seq<Action>, c: nat, id: nat, token: string, now: nat) {
    && c < |actions|
    && actions[c] == Capture(id)
    && PhaseOf(Reached(setup, actions[..c]), id) == Called(token)
    && Reached(setup, actions[..c]).clock == now
    && forall j | c < j <= |actions| :: IsInside(PhaseOf(Reached(setup, actions[..j]), id), token, now)
  }

  /** Every call captures the time once, at its own Capture step. */
  lemma {:induction false} CallHasCapture(setup: Setup, actions: seq<Action>, id: nat, token: string, now: nat)
    returns (c: nat)
    requires IsInside(PhaseOf(Reached(setup, actions), id), token, now)
    ensures IsCapture(setup, actions, c, id, token, now)
  {
    hide Inserted;
    var n := |actions| - 1;
    var before := Reached(setup, actions[..n]);
    assert forall j | 0 <= j <= n :: actions[..n][..j] == actions[..j];
    assert actions[..n + 1] == actions;
    if IsInside(PhaseOf(before, id), token, now) {
      c := CallHasCapture(setup, actions[..n], id, token, now);
    } else {
      c := n;
    }
  }

  /** From the step after the maker's on, the cache has held exactly this entry under k. */
  ghost predicate IsHeldSince(setup: Setup, actions: seq<Action>, maker: nat, k: Digest, entry: CacheEntry) {
    && maker < |actions|
    && forall j | maker < j <= |actions| ::
         var cache := Reached(setup, actions[..j]).cache; k in cache && cache[k] == entry
  }

  /** In every interleaving a cached entry was made by the Insert of some call for its token, which stored it and
      since which it has been in the cache; and its expiry was sized from the time that call captured at its own
      Capture step: ten minutes at most, five for an opaque token, and never past a readable exp claim. */
  lemma {:induction false} EntriesExpireInTime(setup: Setup, actions: seq<Action>, k: Digest)
    returns (maker: nat, capture: nat, now: nat)
    requires k in Reached(setup, actions).cache
    ensures var entry := Reached(setup, actions).cache[k];
            && IsMaker(setup, actions, maker, k.token, now, entry.client)
            && IsHeldSince(setup, actions, maker, k, entry)
            && IsCapture(setup, actions[..maker], capture, actions[maker].id, k.token, now)
            && entry.expires == ClientExpiry(setup.expiries(k.token), now)
            && entry.expires <= now + 600_000_000_000
            && (setup.expiries(k.token).None? ==> entry.expires == now + 300_000_000_000)
            && (setup.expiries(k.token).Some? ==> entry.expires <= setup.expiries(k.token).value)
  {
    hide Inserted, IsCapture;
    var n := |actions| - 1;
    var before := Reached(setup, actions[..n]);
    assert forall j | 0 <= j <= n :: actions[..n][..j] == actions[..j];
    assert actions[..n + 1] == actions;
    if k in before.cache && Reached(setup, actions).cache[k] == before.cache[k] {
      maker, capture, now := EntriesExpireInTime(setup, actions[..n], k);
      assert actions[..n][..maker] == actions[..maker];
    } else {
      var phase := PhaseOf(before, actions[n].id);
      maker, now := n, phase.now;
      EveryInterleavingKeepsInv(setup, actions[..n]);
      InsertedEntries(before.cache, setup.maxEntries, setup.expiries(phase.token), phase.client, phase.now, k);
      capture := CallHasCapture(setup, actions[..n], actions[n].id, phase.token, phase.now);
    }
  }

  /******* Hits and the clock *******/

  /** The call returns a cached client at this look-up. */
  predicate Hits(s: System, id: nat) {
    PhaseOf(s, id).Captured? && Hit(s.cache, PhaseOf(s, id).token, PhaseOf(s, id).now).Some?
  }

  /** How far the clock moves. */
  function TicksIn(actions: seq<Action>): nat {
    if actions == [] then 0
    else
      var last := actions[|actions| - 1];
      TicksIn(actions[..|actions| - 1]) + if last.Tick? then last.duration else 0
  }

  lemma {:induction false} ClockAdds(setup: Setup, actions: seq<Action>, c: nat)
    requires c <= |actions|
    ensures Reached(setup, actions).clock == Reached(setup, actions[..c]).clock + TicksIn(actions[c..])
  {
    hide Inserted;
    if c == |actions| {
      assert actions[..c] == actions;
    } else {
      var n := |actions| - 1;
      ClockAdds(setup, actions[..n], c);
      assert actions[..n][..c] == actions[..c] && actions[c..][..n - c] == actions[..n][c..];
    }
  }

  /** How a call came by the client it returned: it built it and inserted it, or found it at its look-up, made by
      an earlier call. */
  datatype Story =
    | OwnBuild(insert: nat, captured: nat)
    | CacheHit(capture: nat, captured: nat, lookUp: nat, maker: nat, made: nat)

  function ReturnStep(story: Story): nat {
    if story.OwnBuild? then story.insert else story.lookUp
  }

  /** The step of id that made it return, after which it has been waiting for its next call. */
  ghost predicate IsReturn(setup: Setup, actions: seq<Action>, r: nat, id: nat, token: string, client: BearerClient) {
    && r < |actions|
    && forall j | r < j <= |actions| :: PhaseOf(Reached(setup, actions[..j]), id) == Returned(token, Success(client))
  }

  /** For a hit: the maker stored the very entry the look-up found, the time captured at the call's own Capture is
      strictly before that entry's expiry, and by the shared clock the look-up is later than that time by exactly
      the ticks in between. */
  ghost predicate Tells(
    setup: Setup, actions: seq<Action>, id: nat, token: string, client: BearerClient, story: Story)
  {
    && IsReturn(setup, actions, ReturnStep(story), id, token, client)
    && match story
       case OwnBuild(insert, captured) =>
         actions[insert] == Insert(id) && IsMaker(setup, actions, insert, token, captured, client)
       case CacheHit(capture, captured, lookUp, maker, made) =>
         && actions[lookUp] == LookUp(id)
         && IsCapture(setup, actions[..lookUp], capture, id, token, captured)
         && var entry := CacheEntry(client, ClientExpiry(setup.expiries(token), made));
         && IsMaker(setup, actions, maker, token, made, client)
         && IsHeldSince(setup, actions[..lookUp], maker, Digest(token), entry)
         && Digest(token) in Reached(setup, actions[..lookUp]).cache
         && Reached(setup, actions[..lookUp]).cache[Digest(token)] == entry
         && captured < entry.expires
         && Reached(setup, actions[..lookUp]).clock == captured + TicksIn(actions[capture..lookUp])
  }

  lemma TellsLater(setup: Setup, actions: seq<Action>, id: nat, token: string, client: BearerClient, story: Story)
    requires actions != [] && Tells(setup, actions[..|actions| - 1], id, token, client, story)
    requires PhaseOf(Reached(setup, actions), id) == Returned(token, Success(client))
    ensures Tells(setup, actions, id, token, client, story)
  {
    hide Execute, Reached, IsInside;
    var n := |actions| - 1;
    assert forall j | 0 <= j <= n :: actions[..n][..j] == actions[..j];
    assert actions[..n + 1] == actions;
    if story.CacheHit? {
      assert actions[..n][story.capture..story.lookUp] == actions[story.capture..story.lookUp];
    }
  }

  /** In every interleaving a returned client was built by the call that returns it, or was found in the cache
      strictly before its expiry, by the time the call captured at its own Capture step. */
  lemma {:induction false} ReturnedClientHasStory(
    setup: Setup, actions: seq<Action>, id: nat, token: string, client: BearerClient)
    returns (story: Story)
    requires PhaseOf(Reached(setup, actions), id) == Returned(token, Success(client))
    ensures Tells(setup, actions, id, token, client, story)
  {
    hide Inserted, IsCapture, Tells;
    var n := |actions| - 1;
    var before := Reached(setup, actions[..n]);
    var phase := PhaseOf(before, id);
    if phase == Returned(token, Success(client)) {
      story := ReturnedClientHasStory(setup, actions[..n], id, token, client);
      TellsLater(setup, actions, id, token, client, story);
    } else if actions[n].Insert? {
      story := OwnBuild(n, phase.now);
      OwnBuildTells(setup, actions, id, token, phase.now, client);
    } else {
      story := HitTells(setup, actions, id, token, client);
    }
  }

  lemma ReturnsNow(setup: Setup, actions: seq<Action>, id: nat, token: string, client: BearerClient)
    requires actions != [] && PhaseOf(Reached(setup, actions), id) == Returned(token, Success(client))
    ensures IsReturn(setup, actions, |actions| - 1, id, token, client)
  {
    assert actions[..|actions|] == actions;
  }

  lemma OwnBuildTells(setup: Setup, actions: seq<Action>, id: nat, token: string, now: nat, client: BearerClient)
    requires actions != [] && actions[|actions| - 1] == Insert(id)
    requires PhaseOf(Reached(setup, actions[..|actions| - 1]), id) == Built(token, now, client)
    requires PhaseOf(Reached(setup, actions), id) == Returned(token, Success(client))
    ensures Tells(setup, actions, id, token, client, OwnBuild(|actions| - 1, now))
  {
    hide Execute, Reached;
    ReturnsNow(setup, actions, id, token, client);
  }

  lemma HitTells(setup: Setup, actions: seq<Action>, id: nat, token: string, client: BearerClient)
    returns (story: Story)
    requires actions != [] && actions[|actions| - 1] == LookUp(id)
    requires var phase := PhaseOf(Reached(setup, actions[..|actions| - 1]), id);
             && phase.Captured?
             && phase.token == token
             && Hit(Reached(setup, actions[..|actions| - 1]).cache, token, phase.now) == Some(client)
    requires PhaseOf(Reached(setup, actions), id) == Returned(token, Success(client))
    ensures Tells(setup, actions, id, token, client, story)
  {
    hide Execute, Reached;
    var n := |actions| - 1;
    var now := PhaseOf(Reached(setup, actions[..n]), id).now;
    var maker, _, made := EntriesExpireInTime(setup, actions[..n], Digest(token));
    var capture := CallHasCapture(setup, actions[..n], id, token, now);
    ClockAdds(setup, actions[..n], capture);
    assert actions[..n][..capture] == actions[..capture] && actions[..n][capture..] == actions[capture..n];
    assert actions[..n][..maker] == actions[..maker];
    ReturnsNow(setup, actions, id, token, client);
    story := CacheHit(capture, now, n, maker, made);
  }

  /** By the shared clock a hit is late exactly when the clock ticked away the rest of the life of the entry it
      finds, between the call's Capture and its look-up; by the time of its Capture it never is. */
  lemma HitIsLateIff(setup: Setup, actions: seq<Action>, id: nat) returns (capture: nat)
    requires Hits(Reached(setup, actions), id)
    ensures var s := Reached(setup, actions);
            var phase := PhaseOf(s, id);
            var entry := s.cache[Digest(phase.token)];
            && IsCapture(setup, actions, capture, id, phase.token, phase.now)
            && phase.now < entry.expires
            && (s.clock >= entry.expires <==> TicksIn(actions[capture..]) >= entry.expires - phase.now)
            && s.clock - entry.expires < TicksIn(actions[capture..])
  {
    hide Execute, Reached;
    var phase := PhaseOf(Reached(setup, actions), id);
    capture := CallHasCapture(setup, actions, id, phase.token, phase.now);
    ClockAdds(setup, actions, capture);
  }

  /******* Refinement *******/

  predicate SetsPolicy(actions: seq<Action>) {
    exists i | 0 <= i < |actions| :: actions[i].SetPolicy?
  }

  lemma {:induction false} PolicyUnset(setup: Setup, actions: seq<Action>)
    requires !SetsPolicy(actions)
    ensures Reached(setup, actions).policy == setup.policy
  {
    hide Inserted;
    if actions != [] {
      var n := |actions| - 1;
      assert !actions[n].SetPolicy?;
      assert !SetsPolicy(actions[..n]) by {
        assert forall i | 0 <= i < n :: actions[..n][i] == actions[i];
      }
      PolicyUnset(setup, actions[..n]);
    }
  }

  /** The b-th action is the Build that made this client for token, under the factory's policy at that step. */
  ghost predicate IsBuild(setup: Setup, actions: seq<Action>, b: nat, token: string, client: BearerClient) {
    && b < |actions|
    && actions[b].Build?
    && client == BearerClient(token, Reached(setup, actions[..b]).policy)
  }

  lemma {:induction false} BuiltHasBuild(
    setup: Setup, actions: seq<Action>, id: nat, token: string, now: nat, client: BearerClient) returns (b: nat)
    requires PhaseOf(Reached(setup, actions), id) == Built(token, now, client)
    ensures IsBuild(setup, actions, b, token, client) && actions[b] == Build(id, true)
  {
    hide Inserted;
    var n := |actions| - 1;
    if PhaseOf(Reached(setup, actions[..n]), id) == Built(token, now, client) {
      b := BuiltHasBuild(setup, actions[..n], id, token, now, client);
      assert actions[..n][..b] == actions[..b];
    } else {
      b := n;
    }
  }

  /** In every run, also one in which the policy changes, a returned client is the one some Build step made for its
      token, and carries the factory's policy of that step: a cached client keeps the policy it was built with. So it
      carries the present policy if and only if that step had it. */
  lemma ReturnedClientKeepsItsPolicy(setup: Setup, actions: seq<Action>, id: nat, token: string, client: BearerClient)
    returns (b: nat)
    requires PhaseOf(Reached(setup, actions), id) == Returned(token, Success(client))
    ensures IsBuild(setup, actions, b, token, client)
    ensures client.policy == Reached(setup, actions).policy <==>
            Reached(setup, actions[..b]).policy == Reached(setup, actions).policy
  {
    hide Execute, Reached, IsReturn, IsCapture, IsHeldSince;
    var story := ReturnedClientHasStory(setup, actions, id, token, client);
    var m := if story.OwnBuild? then story.insert else story.maker;
    var now := if story.OwnBuild? then story.captured else story.made;
    b := BuiltHasBuild(setup, actions[..m], actions[m].id, token, now, client);
    assert actions[..m][..b] == actions[..b];
  }

  /** The same of every client in the cache. */
  lemma CachedClientWasBuilt(setup: Setup, actions: seq<Action>, k: Digest) returns (b: nat)
    requires k in Reached(setup, actions).cache
    ensures IsBuild(setup, actions, b, k.token, Reached(setup, actions).cache[k].client)
  {
    hide Execute, Reached, IsCapture, IsHeldSince;
    var maker, _, now := EntriesExpireInTime(setup, actions, k);
    var client := Reached(setup, actions).cache[k].client;
    b := BuiltHasBuild(setup, actions[..maker], actions[maker].id, k.token, now, client);
    assert actions[..maker][..b] == actions[..b];
  }

  /** The cached ClientFor refines the uncached one in every run: what a call returns is what a call without a cache
      returns under the policy the factory had at some step of the run; a returned client's own Build step. Without
      a SetWritePolicy in the run that is the one policy. */
  lemma CachedRefinesUncached(setup: Setup, actions: seq<Action>, id: nat) returns (b: nat)
    requires PhaseOf(Reached(setup, actions), id).Returned?
    ensures b <= |actions|
    ensures var phase := PhaseOf(Reached(setup, actions), id);
            && phase.result == Uncached(phase.token, Reached(setup, actions[..b]).policy, phase.result.Success?)
            && (phase.result.Success? ==> IsBuild(setup, actions, b, phase.token, phase.result.value))
            && (!SetsPolicy(actions) ==>
                  phase.result == Uncached(phase.token, setup.policy, phase.result.Success?))
  {
    hide Execute;
    var s := Reached(setup, actions);
    EveryInterleavingKeepsInv(setup, actions);
    assert id in s.threads;
    assert IsSound(s.threads[id], s.clock);
    var phase := PhaseOf(s, id);
    match phase.result {
      case Success(client) =>
        b := ReturnedClientKeepsItsPolicy(setup, actions, id, phase.token, client);
        if !SetsPolicy(actions) {
          assert forall i | 0 <= i < b :: actions[..b][i] == actions[i];
          assert !SetsPolicy(actions[..b]);
          PolicyUnset(setup, actions[..b]);
        }
      case Failure(error) =>
        b := 0;
        assert error == NoBearerToken <==> phase.token == "";
    }
  }

  /******* Stale policies and late hits do happen *******/

  lemma ReachedStep(setup: Setup, actions: seq<Action>, a: Action)
    ensures Reached(setup, actions + [a]) == Step(Reached(setup, actions), setup.maxEntries, setup.expiries, a)
  {
    assert (actions + [a])[..|actions|] == actions;
  }

  /** A first caller fills the cache and a second one captures the time. */
  function WarmUp(token: string): seq<Action> {
    [Call(0, token), Capture(0), LookUp(0), Build(0, true), Insert(0), Call(1, token), Capture(1)]
  }

  /** In every factory with room, the second caller of a token that has not expired is about to hit. */
  lemma WarmUpHits(setup: Setup, token: string)
    requires setup.maxEntries > 0 && token != "" && setup.clock < ClientExpiry(setup.expiries(token), setup.clock)
    ensures var s := Reached(setup, WarmUp(token));
            && Hits(s, 1)
            && PhaseOf(s, 1) == Captured(token, setup.clock)
            && s.clock == setup.clock
            && s.policy == setup.policy
            && s.cache == map[Digest(token) :=
                 CacheEntry(BearerClient(token, setup.policy), ClientExpiry(setup.expiries(token), setup.clock))]
  {
    hide ClientExpiry, Reached;
    var w := WarmUp(token);
    var none: seq<Action> := [];
    ReachedNothing(setup);
    ReachedStep(setup, none, w[0]);
    assert none + [w[0]] == w[..1];
    ReachedStep(setup, w[..1], w[1]);
    assert w[..1] + [w[1]] == w[..2];
    ReachedStep(setup, w[..2], w[2]);
    assert w[..2] + [w[2]] == w[..3];
    ReachedStep(setup, w[..3], w[3]);
    assert w[..3] + [w[3]] == w[..4];
    ReachedStep(setup, w[..4], w[4]);
    assert w[..4] + [w[4]] == w[..5];
    ReachedStep(setup, w[..5], w[5]);
    assert w[..5] + [w[5]] == w[..6];
    ReachedStep(setup, w[..6], w[6]);
    assert w[..6] + [w[6]] == w;
  }

  lemma ReachedNothing(setup: Setup)
    ensures Reached(setup, []) == Initial(setup.clock, setup.policy)
  {
  }

  /** SetWritePolicy after a client was cached does not reach that client: in every reached state, a call about to
      hit returns the client built under another policy. */
  lemma CachedClientKeepsItsPolicy(setup: Setup, actions: seq<Action>, id: nat, policy: WritePolicy)
    requires Hits(Reached(setup, actions), id)
    requires Reached(setup, actions).cache[Digest(PhaseOf(Reached(setup, actions), id).token)].client.policy != policy
    ensures var client := Reached(setup, actions).cache[Digest(PhaseOf(Reached(setup, actions), id).token)].client;
            var t := Reached(setup, actions + [SetPolicy(policy)] + [LookUp(id)]);
            && t.policy == policy
            && PhaseOf(t, id) == Returned(PhaseOf(Reached(setup, actions), id).token, Success(client))
            && client.policy != t.policy
  {
    hide Reached;
    ReachedStep(setup, actions, SetPolicy(policy));
    ReachedStep(setup, actions + [SetPolicy(policy)], LookUp(id));
  }

  /** In every reached state, a call about to hit that waits for the lock past the expiry of the entry still gets
      the client. */
  lemma LateHit(setup: Setup, actions: seq<Action>, id: nat, duration: nat)
    requires Hits(Reached(setup, actions), id)
    requires var s := Reached(setup, actions);
             s.clock + duration >= s.cache[Digest(PhaseOf(s, id).token)].expires
    ensures var entry := Reached(setup, actions).cache[Digest(PhaseOf(Reached(setup, actions), id).token)];
            var t := Reached(setup, actions + [Tick(duration)] + [LookUp(id)]);
            && entry.expires <= t.clock
            && PhaseOf(t, id) == Returned(PhaseOf(Reached(setup, actions), id).token, Success(entry.client))
  {
    hide Reached;
    ReachedStep(setup, actions, Tick(duration));
    ReachedStep(setup, actions + [Tick(duration)], LookUp(id));
  }
}
