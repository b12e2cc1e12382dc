/** What we did: the events of a stretch of history that this client caused. */
module Footprint {
  import opened Wrappers
  import opened Policy
  import opened Store
  import opened Interleaving

  function OursIn(events: seq<Event>): seq<Event> {
    if events == [] then []
    else
      var earlier := OursIn(events[..|events| - 1]);
      if IsOurs(events[|events| - 1]) then earlier + [events[|events| - 1]] else earlier
  }

  lemma {:induction false} OursInAppend(a: seq<Event>, b: seq<Event>)
    ensures OursIn(a + b) == OursIn(a) + OursIn(b)
  {
    if b == [] {
      assert a + b == a;
    } else {
      assert (a + b)[..|a + b| - 1] == a + b[..|b| - 1];
      OursInAppend(a, b[..|b| - 1]);
    }
  }

  lemma OursInOne(e: Event)
    ensures OursIn([e]) == if IsOurs(e) then [e] else []
  {
    var events := [e];
    assert events[..|events| - 1] == [];
    assert OursIn([]) == [];
  }

  ghost predicate Extends(s: Sys, t: Sys) {
    s.world.history <= t.world.history
  }

  /** The events this client caused between s and t. */
  function Made(s: Sys, t: Sys): seq<Event> {
    if |s.world.history| <= |t.world.history| then OursIn(t.world.history[|s.world.history|..]) else []
  }

  lemma MadeAppend(s: Sys, t: Sys, u: Sys)
    requires Extends(s, t) && Extends(t, u)
    ensures Extends(s, u) && Made(s, u) == Made(s, t) + Made(t, u)
  {
    var a := t.world.history[|s.world.history|..];
    var b := u.world.history[|t.world.history|..];
    assert u.world.history[|s.world.history|..] == a + b;
    OursInAppend(a, b);
  }

  lemma {:induction false} TakeAllMade(w: World, steps: seq<Step>, script: seq<Turn>)
    ensures Extends(Sys(w, script), Sys(TakeAll(w, steps), script))
    ensures Made(Sys(w, script), Sys(TakeAll(w, steps), script)) == []
    decreases |steps|
  {
    if steps != [] {
      var w1 := Take(w, steps[0]);
      TakeAllMade(w1, steps[1..], script);
      MadeNothing(Sys(w, script), Sys(w1, script));
      MadeAppend(Sys(w, script), Sys(w1, script), Sys(TakeAll(w, steps), script));
    } else {
      MadeNothing(Sys(w, script), Sys(w, script));
    }
  }

  /** A history that grew by at most one event. */
  lemma MadeNothing(s: Sys, t: Sys)
    requires t.world.history == s.world.history
          || (|t.world.history| == |s.world.history| + 1 && s.world.history <= t.world.history
              && !IsOurs(t.world.history[|s.world.history|]))
    ensures Extends(s, t) && Made(s, t) == []
  {
    if t.world.history != s.world.history {
      var e := t.world.history[|s.world.history|];
      OursInOne(e);
      assert t.world.history[|s.world.history|..] == [e];
    }
  }

  lemma MadeOne(s: Sys, t: Sys, e: Event)
    requires t.world.history == s.world.history + [e] && IsOurs(e)
    ensures Extends(s, t) && Made(s, t) == [e]
  {
    OursInOne(e);
    assert t.world.history[|s.world.history|..] == [e];
  }

  lemma ArriveMade(s: Sys)
    ensures Extends(s, Arrive(s)) && Made(s, Arrive(s)) == []
  {
    TakeAllMade(s.world, Head(s).steps, s.script);
  }

  lemma SelectMade(s: Sys, ctx: Context)
    ensures Extends(s, Select(s, ctx).sys) && Made(s, Select(s, ctx).sys) == []
  {
    ArriveMade(s);
  }

  /** An update is applied to the state it was computed from, or not at all; only a lost reply reports an
      applied update as an error. */
  lemma UpdateMade(s: Sys, ctx: Context, key: Key, o: Object)
    ensures var put := Update(s, ctx, key, o);
            && Extends(s, put.sys)
            && (Made(s, put.sys) == [] ==> put.sys.world.objects == Arrive(s).world.objects && put.result.Failure?)
            && (Made(s, put.sys) != [] ==>
                  var t := Arrive(s).world;
                  && key in t.objects
                  && t.objects[key].rv == o.rv
                  && Made(s, put.sys) == [Write(Ours, key, Some(t.objects[key]), Some(o.(rv := t.rv)))]
                  && put.sys.world.objects == t.objects[key := o.(rv := t.rv)]
                  && (put.result == Success(o.(rv := t.rv)) || put.result == Failure(Unavailable)))
  {
    ArriveMade(s);
    var t, put := Arrive(s), Update(s, ctx, key, o);
    if put.sys.world.history != t.world.history {
      MadeOne(t, put.sys, put.sys.world.history[|t.world.history|]);
      MadeAppend(s, t, put.sys);
    }
  }

  lemma CreateMade(s: Sys, ctx: Context, key: Key, labels: Metadata, body: Body)
    ensures var made := Create(s, ctx, key, labels, body);
            && Extends(s, made.sys)
            && (Made(s, made.sys) == [] ==> made.sys.world.objects == Arrive(s).world.objects && made.result.Failure?)
            && (Made(s, made.sys) != [] ==>
                  var t := Arrive(s).world;
                  var o := Object(t.nextUid, t.rv, labels, map[], body);
                  && key !in t.objects
                  && Made(s, made.sys) == [Write(Ours, key, None, Some(o))]
                  && made.sys.world.objects == t.objects[key := o]
                  && (made.result == Success(o) || made.result == Failure(Unavailable)))
  {
    ArriveMade(s);
    var t, made := Arrive(s), Create(s, ctx, key, labels, body);
    if made.sys.world.history != t.world.history {
      MadeOne(t, made.sys, made.sys.world.history[|t.world.history|]);
      MadeAppend(s, t, made.sys);
    }
  }

  lemma DeleteMade(s: Sys, ctx: Context, key: Key)
    ensures var deleted := Delete(s, ctx, key);
            && Extends(s, deleted.sys)
            && (Made(s, deleted.sys) == [] ==>
                  deleted.sys.world.objects == Arrive(s).world.objects && deleted.result.Failure?)
            && (Made(s, deleted.sys) != [] ==>
                  var t := Arrive(s).world;
                  && key in t.objects
                  && Made(s, deleted.sys) == [Write(Ours, key, Some(t.objects[key]), None)]
                  && deleted.sys.world.objects == t.objects - {key}
                  && (deleted.result == Success(()) || deleted.result == Failure(Unavailable)))
  {
    ArriveMade(s);
    var t, deleted := Arrive(s), Delete(s, ctx, key);
    if deleted.sys.world.history != t.world.history {
      MadeOne(t, deleted.sys, deleted.sys.world.history[|t.world.history|]);
      MadeAppend(s, t, deleted.sys);
    }
  }

  /** The eviction, if it was sent, is the one new event; the server accepted it only if it says which pod. */
  lemma EvictMade(s: Sys, ctx: Context, key: Key)
    ensures var reply := Evict(s, ctx, key);
            && Extends(s, reply.sys)
            && (Made(s, reply.sys) == [] ==> reply.answer == Unanswered)
            && (Made(s, reply.sys) != [] ==>
                  var t := Arrive(s).world;
                  var e := Made(s, reply.sys)[0];
                  && e.Eviction?
                  && Made(s, reply.sys) == [Eviction(key, e.hit, reply.answer)]
                  && (reply.answer == Accepted ==> e.hit.Some?)
                  && (reply.answer == Missing ==> key !in t.objects)
                  && (reply.answer in {Missing, TooMany} ==> e.hit.None?)
                  && (e.hit.Some? ==> key in t.objects && e.hit.value == t.objects[key].uid))
  {
    ArriveMade(s);
    var t, reply := Arrive(s), Evict(s, ctx, key);
    if reply.sys.world.history != t.world.history {
      MadeOne(t, reply.sys, reply.sys.world.history[|t.world.history|]);
      MadeAppend(s, t, reply.sys);
    }
  }

  lemma {:induction false} AllOurs(events: seq<Event>)
    requires forall i | 0 <= i < |events| :: IsOurs(events[i])
    ensures OursIn(events) == events
  {
    if events != [] { AllOurs(events[..|events| - 1]); }
  }

  /** When nobody else writes, what we made is the whole history. */
  lemma QuietHistory(s: Sys, t: Sys)
    requires OnlyOurs(s.world, t.world)
    ensures Made(s, t) == Since(s.world, t.world)
  {
    AllOurs(Since(s.world, t.world));
  }
}
