/** What holds over whole runs: what is never changed, what is never deleted, and where the delete check
    falls short (pkg/capi/policy.go, pkg/capi/client.go). */
module RunSafety {
  import opened Wrappers
  import opened Policy
  import opened Store
  import opened Interleaving
  import opened Footprint
  import opened Changes
  import opened Capi
  import opened Runs

  /******* Properties of one key over a run *******/

  /** The state under key after the first n events. */
  function StateAt(objects: Objects, events: seq<Event>, key: Key, n: nat): Option<Object>
    requires n <= |events|
  {
    Lookup(Replay(objects, events[..n]), key)
  }

  ghost predicate KeptUpTo(keep: Option<Object> -> bool, objects: Objects, events: seq<Event>, key: Key, n: nat) {
    n <= |events| && forall j | 0 <= j <= n :: keep(StateAt(objects, events, key, j))
  }

  predicate Writes(e: Event, key: Key) {
    e.Write? && e.key == key
  }

  lemma {:induction false} PrefixFits(objects: Objects, events: seq<Event>, i: nat)
    requires Fits(objects, events) && i < |events|
    ensures events[i].Write? ==> StateAt(objects, events, events[i].key, i) == events[i].before
  {
    if i < |events| - 1 {
      PrefixFits(objects, events[..|events| - 1], i);
      assert events[..|events| - 1][..i] == events[..i];
    }
  }

  /** One more event. */
  lemma StateStep(objects: Objects, events: seq<Event>, key: Key, i: nat)
    requires i < |events|
    ensures StateAt(objects, events, key, i + 1) ==
            if Writes(events[i], key) then events[i].after else StateAt(objects, events, key, i)
  {
    var upTo := events[..i + 1];
    assert upTo[..|upTo| - 1] == events[..i] && upTo[|upTo| - 1] == events[i];
  }

  /** A property of the state under key that survives every write of it, given that it held all along. */
  lemma KeptThroughout(keep: Option<Object> -> bool, objects: Objects, events: seq<Event>, key: Key)
    requires keep(Lookup(objects, key))
    requires forall i | 0 <= i < |events| && Writes(events[i], key) && KeptUpTo(keep, objects, events, key, i) ::
               keep(events[i].after)
    ensures KeptUpTo(keep, objects, events, key, |events|)
  {
    hide Replay;
    var n := 0;
    assert StateAt(objects, events, key, 0) == Lookup(objects, key) by {
      assert events[..0] == [];
      ReplayNothing(objects);
    }
    while n < |events|
      invariant n <= |events| && KeptUpTo(keep, objects, events, key, n)
    {
      StateStep(objects, events, key, n);
      n := n + 1;
    }
  }

  lemma ReplayNothing(objects: Objects)
    ensures Replay(objects, []) == objects
  {
  }

  /******* The theorems *******/

  predicate ManagedState(o: Option<Object>) {
    o.Some? && Managed(o.value.labels, o.value.annotations)
  }

  /** Whoever else writes, every update this client applies to a policed kind under the GitOps guard replaces
      a state without an ownership marker. */
  lemma GuardedUpdatesHitUnmanagedStates(s: Sys, p: WritePolicy, requests: seq<Request>, i: nat)
    requires Valid(s.world) && p.gitOpsGuard
    requires var t := Run(s, p, requests);
             && |s.world.history| <= i < |t.world.history|
             && t.world.history[i].Write?
             && t.world.history[i].actor == Ours
             && Guarded(t.world.history[i].key.kind)
             && t.world.history[i].before.Some?
             && t.world.history[i].after.Some?
    ensures !ManagedState(Run(s, p, requests).world.history[i].before)
  {
    hide Valid, Run;
    RunIsLawful(s, p, requests);
    var t := Run(s, p, requests);
    assert Since(s.world, t.world)[i - |s.world.history|] == t.world.history[i];
  }

  /** Others keep the property when they write under key. */
  ghost predicate OthersKeep(keep: Option<Object> -> bool, key: Key, s: Sys, t: Sys) {
    forall i | |s.world.history| <= i < |t.world.history| && Writes(t.world.history[i], key)
               && !IsOurs(t.world.history[i]) :: keep(t.world.history[i].before) ==> keep(t.world.history[i].after)
  }

  ghost predicate NeverOurs(key: Key, s: Sys, t: Sys) {
    forall i | |s.world.history| <= i < |t.world.history| && Writes(t.world.history[i], key) ::
      !IsOurs(t.world.history[i])
  }

  /** No lawful event of ours writes a key whose object has been managed all along. */
  lemma NoLawfulWriteOfManaged(p: WritePolicy, calls: seq<Call>, objects: Objects, events: seq<Event>, key: Key, i: nat)
    requires p.gitOpsGuard && Guarded(key.kind)
    requires i < |events| && Writes(events[i], key)
    requires StateAt(objects, events, key, i) == events[i].before
    requires KeptUpTo(ManagedState, objects, events, key, i)
    ensures !IsAllowedWrite(p, calls, events[i]) && !IsCheckedDeletion(p, objects, events, i)
  {
    hide Replay, ManagedBy;
    assert ManagedState(StateAt(objects, events, key, i));
    forall j | 0 <= j <= i
      ensures !PassesDelete(p, Lookup(Replay(objects, events[..j]), events[i].key))
    {
      assert ManagedState(StateAt(objects, events, key, j));
    }
  }

  /** Under the GitOps guard an object of a policed kind that carries an ownership marker is never again
      changed or deleted by this client, over any run of any calls, as long as others who write it keep it
      managed; so it is still there, managed, at the end. */
  lemma ManagedIsNeverTouched(s: Sys, p: WritePolicy, requests: seq<Request>, key: Key)
    requires Valid(s.world) && p.gitOpsGuard && Guarded(key.kind)
    requires ManagedState(Lookup(s.world.objects, key))
    ensures var t := Run(s, p, requests);
            OthersKeep(ManagedState, key, s, t) ==>
              NeverOurs(key, s, t) && ManagedState(Lookup(t.world.objects, key))
  {
    hide Valid, Run, Managed, IsAllowedWrite, IsCheckedDeletion, Follows, Fits, Replay, ReplayIndex;
    var t := Run(s, p, requests);
    if OthersKeep(ManagedState, key, s, t) {
      RunIsLawful(s, p, requests);
      var objects, events := s.world.objects, Since(s.world, t.world);
      RunFollows(s, p, requests);
      FollowsGives(s, t);
      forall i | 0 <= i < |events| && Writes(events[i], key) && KeptUpTo(ManagedState, objects, events, key, i)
        ensures !IsOurs(events[i]) && ManagedState(events[i].after)
      {
        PrefixFits(objects, events, i);
        NoLawfulWriteOfManaged(p, CallsOf(requests), objects, events, key, i);
        assert events[i] == t.world.history[|s.world.history| + i];
        assert ManagedState(StateAt(objects, events, key, i));
      }
      KeptThroughout(ManagedState, objects, events, key);
      assert events[..|events|] == events;
      assert ManagedState(StateAt(objects, events, key, |events|));
      forall i | |s.world.history| <= i < |t.world.history| && Writes(t.world.history[i], key)
        ensures !IsOurs(t.world.history[i])
      {
        var m := i - |s.world.history|;
        assert events[m] == t.world.history[i];
        assert KeptUpTo(ManagedState, objects, events, key, m);
      }
    }
  }

  lemma {:induction false} RunSplits(s: Sys, p: WritePolicy, a: seq<Request>, b: seq<Request>)
    requires Valid(s.world)
    ensures Run(s, p, a + b) == Run(Run(s, p, a), p, b)
    decreases |a|
  {
    hide Valid, Serve, Follows;
    if a == [] {
      assert a + b == b;
    } else {
      assert (a + b)[0] == a[0] && (a + b)[1..] == a[1..] + b;
      RunSplits(Serve(s, p, a[0]), p, a[1..], b);
    }
  }

  /** Without other writers, once any call of a run has made an object of a policed kind managed, every later
      call under the guard leaves exactly that state of it. */
  lemma OnceManagedFrozen(s: Sys, p: WritePolicy, earlier: seq<Request>, later: seq<Request>, key: Key)
    requires Valid(s.world) && Quiet(s.script) && p.gitOpsGuard && Guarded(key.kind)
    ensures var made := Lookup(Run(s, p, earlier).world.objects, key);
            ManagedState(made) ==> Lookup(Run(s, p, earlier + later).world.objects, key) == made
  {
    hide Valid, Run, Managed, Follows, Replay, Quiet, Fits;
    var middle := Run(s, p, earlier);
    var end := Run(middle, p, later);
    if ManagedState(Lookup(middle.world.objects, key)) {
      RunSplits(s, p, earlier, later);
      RunFollows(s, p, earlier);
      FollowsGives(s, middle);
      RunFollows(middle, p, later);
      FollowsGives(middle, end);
      ManagedIsNeverTouched(middle, p, later, key);
      UntouchedIsUnchanged(middle, end, key);
    }
  }

  lemma UntouchedIsUnchanged(s: Sys, t: Sys, key: Key)
    requires Recorded(s.world, t.world)
    requires forall i | |s.world.history| <= i < |t.world.history| :: !Writes(t.world.history[i], key)
    ensures Lookup(t.world.objects, key) == Lookup(s.world.objects, key)
  {
    var events := Since(s.world, t.world);
    var start := Lookup(s.world.objects, key);
    forall i | 0 <= i < |events| ensures !Writes(events[i], key) {
      assert events[i] == t.world.history[|s.world.history| + i];
    }
    KeyInvariant(o => o == start, key, s.world.objects, events);
  }

  /** A lawful event of ours keeps the label on a protected object, and does not delete it. */
  lemma LawfulWritesKeepTheLabel(
    p: WritePolicy, calls: seq<Call>, objects: Objects, events: seq<Event>, key: Key, i: nat)
    requires key.kind in {Cluster, Machine} && !SomeUnprotects(calls, key)
    requires i < |events| && Writes(events[i], key)
    requires StateAt(objects, events, key, i) == events[i].before
    requires KeptUpTo(Protected, objects, events, key, i)
    requires IsAllowedWrite(p, calls, events[i]) || IsCheckedDeletion(p, objects, events, i)
    ensures Protected(events[i].after)
  {
    hide Replay, ManagedBy;
    assert Protected(StateAt(objects, events, key, i));
    forall j | 0 <= j <= i
      ensures !PassesDelete(p, Lookup(Replay(objects, events[..j]), events[i].key))
    {
      assert Protected(StateAt(objects, events, key, j));
    }
  }

  /** Under every policy, a Cluster or Machine with the prevent-deletion label keeps it and is not deleted, over
      any run, as long as others who write it keep the label and no call of the run is an UpdateCluster that
      removes it from this Cluster. */
  lemma LabelledIsNeverDeleted(s: Sys, p: WritePolicy, requests: seq<Request>, key: Key)
    requires Valid(s.world) && key.kind in {Cluster, Machine}
    requires Protected(Lookup(s.world.objects, key))
    requires !SomeUnprotects(CallsOf(requests), key)
    ensures var t := Run(s, p, requests);
            OthersKeep(Protected, key, s, t) ==> Protected(Lookup(t.world.objects, key))
  {
    hide Valid, Run, Protected, IsAllowedWrite, IsCheckedDeletion, Follows, Fits, Replay, ReplayIndex, SomeUnprotects;
    var t := Run(s, p, requests);
    if OthersKeep(Protected, key, s, t) {
      RunIsLawful(s, p, requests);
      var objects, events := s.world.objects, Since(s.world, t.world);
      RunFollows(s, p, requests);
      FollowsGives(s, t);
      forall i | 0 <= i < |events| && Writes(events[i], key) && KeptUpTo(Protected, objects, events, key, i)
        ensures Protected(events[i].after)
      {
        PrefixFits(objects, events, i);
        assert events[i] == t.world.history[|s.world.history| + i];
        assert Protected(StateAt(objects, events, key, i));
        if IsOurs(events[i]) { LawfulWritesKeepTheLabel(p, CallsOf(requests), objects, events, key, i); }
      }
      KeptThroughout(Protected, objects, events, key);
      assert events[..|events|] == events;
      assert Protected(StateAt(objects, events, key, |events|));
    }
  }

  /** Nothing this client can do removes the label from a Machine: a labelled Machine is never deleted by it,
      whatever it is told to do. */
  lemma LabelledMachineIsNeverDeleted(
    s: Sys, p: WritePolicy, requests: seq<Request>, namespace: string, name: string)
    requires Valid(s.world)
    requires Protected(Lookup(s.world.objects, Key(Machine, namespace, name)))
    ensures var key, t := Key(Machine, namespace, name), Run(s, p, requests);
            OthersKeep(Protected, key, s, t) ==> Protected(Lookup(t.world.objects, key))
  {
    hide Valid, Run, Protected;
    LabelledIsNeverDeleted(s, p, requests, Key(Machine, namespace, name));
  }

  /** Under a read-only policy the only events a run can cause are writes of ConfigMaps, Secrets and
      ClusterResourceSets, whose methods ask no policy; without other writers every other object stays as it
      was. */
  lemma ReadOnlyRunsTouchNoPolicedKind(s: Sys, p: WritePolicy, requests: seq<Request>, key: Key)
    requires Valid(s.world) && p.readOnly && !Unguarded(key.kind)
    ensures var t := Run(s, p, requests);
            && (forall i | |s.world.history| <= i < |t.world.history| && IsOurs(t.world.history[i]) ::
                  t.world.history[i].Write? && Unguarded(t.world.history[i].key.kind))
            && (Quiet(s.script) ==> Lookup(t.world.objects, key) == Lookup(s.world.objects, key))
  {
    hide Valid, Run, ManagedBy, Follows, Fits, Replay, Quiet;
    var t := Run(s, p, requests);
    RunIsLawful(s, p, requests);
    RunFollows(s, p, requests);
    FollowsGives(s, t);
    forall i | |s.world.history| <= i < |t.world.history| && IsOurs(t.world.history[i])
      ensures t.world.history[i].Write? && Unguarded(t.world.history[i].key.kind)
    {
      assert Since(s.world, t.world)[i - |s.world.history|] == t.world.history[i];
    }
    if Quiet(s.script) { UntouchedIsUnchanged(s, t, key); }
  }

  /******* Get and Delete are two requests *******/

  ghost predicate Touches(events: seq<Event>, key: Key) {
    exists i | 0 <= i < |events| :: Writes(events[i], key)
  }

  lemma TouchesAppend(a: seq<Event>, b: seq<Event>, key: Key)
    ensures Touches(a + b, key) <==> Touches(a, key) || Touches(b, key)
  {
    if Touches(a, key) {
      var i :| 0 <= i < |a| && Writes(a[i], key);
      assert Writes((a + b)[i], key);
    }
    if Touches(b, key) {
      var i :| 0 <= i < |b| && Writes(b[i], key);
      assert Writes((a + b)[|a| + i], key);
    }
  }

  /** One step of others leaves the state under key exactly when it does not write it: a write gives it a new
      resourceVersion. */
  lemma StepTouches(w: World, step: Step, key: Key, o: Object)
    requires Valid(w) && Lookup(w.objects, key) == Some(o)
    ensures w.history <= Take(w, step).history
    ensures Touches(Since(w, Take(w, step)), key) <==> Lookup(Take(w, step).objects, key) != Some(o)
  {
    var w' := Take(w, step);
    if w'.history != w.history {
      var events := Since(w, w');
      assert events == [events[0]];
      assert Touches(events, key) <==> Writes(events[0], key);
    }
  }

  /** A state that is not under key, under a resourceVersion already given out, does not come back. */
  lemma StateDoesNotReturn(w: World, w': World, key: Key, o: Object)
    requires Later(w, w') && o.rv < w.rv && Lookup(w.objects, key) != Some(o)
    ensures Lookup(w'.objects, key) != Some(o)
  {
    if key in w'.objects { assert KeyLater(w, w', key); }
  }

  lemma VersionsOnlyGrow(w: World, w': World, key: Key, o: Object)
    requires Valid(w) && Later(w, w') && Lookup(w.objects, key) == Some(o)
    ensures o.rv < w'.rv
  {
  }

  lemma {:induction false} StepsTouch(w: World, steps: seq<Step>, key: Key, o: Object)
    requires Valid(w) && Lookup(w.objects, key) == Some(o)
    ensures w.history <= TakeAll(w, steps).history
    ensures Touches(Since(w, TakeAll(w, steps)), key) <==> Lookup(TakeAll(w, steps).objects, key) != Some(o)
    decreases |steps|
  {
    hide Take, Touches, Writes, Recorded, Valid, Later;
    if steps == [] {
      NothingTouches(w, key);
    } else {
      var w1, w' := Take(w, steps[0]), TakeAll(w, steps);
      StepTouches(w, steps[0], key, o);
      TakeKeeps(w, steps[0]);
      TakeAllKeeps(w1, steps[1..]);
      assert Since(w, w') == Since(w, w1) + Since(w1, w');
      TouchesAppend(Since(w, w1), Since(w1, w'), key);
      VersionsOnlyGrow(w, w1, key, o);
      if Lookup(w1.objects, key) == Some(o) {
        StepsTouch(w1, steps[1..], key, o);
      } else {
        StateDoesNotReturn(w1, w', key, o);
      }
    }
  }

  lemma NothingTouches(w: World, key: Key)
    ensures !Touches(Since(w, w), key)
  {
  }

  /** A delete has checked a state that it may delete, and removes that very state if and only if nobody else
      wrote the object between its two requests. */
  lemma DeletesWhatItCheckedIffUntouched(s: Sys, p: WritePolicy, ctx: Context, key: Key, force: bool)
    requires Valid(s.world)
    requires Made(s, Erase(s, p, ctx, key, force).sys) != []
    ensures var checked := Arrive(s);
            var made := Made(s, Erase(s, p, ctx, key, force).sys);
            && PassesDelete(p, Lookup(checked.world.objects, key))
            && (var o := checked.world.objects[key]; o.body.MachineBody? ==> !UnsafeToDelete(o, force))
            && Extends(checked, Arrive(checked))
            && |made| == 1
            && made[0].Write?
            && made[0].key == key
            && made[0].after.None?
            && (made[0].before == Lookup(checked.world.objects, key) <==>
                  !Touches(Since(checked.world, Arrive(checked).world), key))
  {
    hide Valid, Follows, Made, CheckDelete, Touches, Later, Recorded, UnsafeToDelete;
    var got := Get(s, ctx, key);
    var out := Erase(s, p, ctx, key, force);
    ArriveFollows(s);
    FollowsGives(s, got.sys);
    ArriveMade(s);
    DeleteMade(got.sys, ctx, key);
    MadeAppend(s, got.sys, Delete(got.sys, ctx, key).sys);
    assert out.sys == got.sys || out.sys == Delete(got.sys, ctx, key).sys;
    StepsTouch(got.sys.world, Head(got.sys).steps, key, got.result.value);
  }

  /** The race: whatever state another writer gives the object after the check, also one that is managed or
      carries the prevent-deletion label, is deleted. */
  lemma DeleteRemovesAnUncheckedState(w: World, p: WritePolicy, ctx: Context, key: Key, force: bool, other: Object)
    requires Valid(w) && !Done(ctx, w) && key in w.objects && key.kind in {Cluster, Machine}
    requires PassesDelete(p, Some(w.objects[key]))
    requires w.objects[key].body.MachineBody? ==> !UnsafeToDelete(w.objects[key], force)
    requires Legal(w, Put(key, other))
    ensures var s := Sys(w, [QUIET, Turn([Put(key, other)], Delivered, true, true)]);
            var out := Erase(s, p, ctx, key, force);
            && out.err.None?
            && Made(s, out.sys) == [Write(Ours, key, Some(other.(rv := w.rv)), None)]
            && key !in out.sys.world.objects
  {
    hide Valid, CheckDelete, UnsafeToDelete, Made;
    var race := Turn([Put(key, other)], Delivered, true, true);
    var s := Sys(w, [QUIET, race]);
    assert s.script[1..] == [race];
    assert TakeAll(w, []) == w;
    var got := Get(s, ctx, key);
    assert got.sys == Sys(w, [race]) && got.result == Success(w.objects[key]);
    var w1 := Take(w, Put(key, other));
    assert race.steps[1..] == [];
    assert TakeAll(w, race.steps) == TakeAll(w1, []) == w1;
    ArriveMade(s);
    DeleteMade(got.sys, ctx, key);
    MadeAppend(s, got.sys, Delete(got.sys, ctx, key).sys);
    assert Arrive(got.sys).world == w1;
    assert Reaches(ctx, got.sys) && Answers(ctx, got.sys);
    var deleted := Delete(got.sys, ctx, key);
    assert deleted.sys.world == Commit(w1, Ours, key, None);
    MadeOne(Arrive(got.sys), deleted.sys, Write(Ours, key, Some(w1.objects[key]), None));
    ArriveMade(got.sys);
    MadeAppend(got.sys, Arrive(got.sys), deleted.sys);
  }
}
