/** What DeleteCluster and DeleteMachine remove, and when they succeed, by the object's own fields
    (pkg/capi/client.go, pkg/capi/policy.go). */
module Deletions {
  import opened Wrappers
  import opened Policy
  import opened Store
  import opened Interleaving
  import opened Footprint
  import opened Capi

  /** A Machine that only a forced call may delete: a control plane machine, or one that reports itself healthy. */
  predicate NeedsForce(o: Object) {
    && o.body.MachineBody?
    && (|| "cluster.x-k8s.io/control-plane" in o.labels
        || Condition("HealthCheckSucceeded", "True") in o.body.conditions)
  }

  lemma UnsafeIffNeedsForce(o: Object, force: bool)
    requires o.body.MachineBody?
    ensures UnsafeToDelete(o, force) <==> !force && NeedsForce(o)
  {
    if i :| 0 <= i < |o.body.conditions| && o.body.conditions[i] == Condition("HealthCheckSucceeded", "True") {
      assert IsHealthy(o);
    }
  }

  /** Whoever else writes, a call removes at most the one object it names, and only after it read a state of it that
      passes CheckDelete and does not need a force it was not given. Only a lost reply hides that it did. */
  lemma DeletionWasChecked(s: Sys, p: WritePolicy, ctx: Context, key: Key, force: bool)
    requires Valid(s.world) && key.kind in {Cluster, Machine}
    ensures var out := Erase(s, p, ctx, key, force);
            var made := Made(s, out.sys);
            && Extends(s, out.sys)
            && |made| <= 1
            && (made == [] ==> out.err.Some?)
            && (made != [] ==>
                  && made[0].Write?
                  && made[0].actor == Ours
                  && made[0].key == key
                  && made[0].before.Some?
                  && made[0].after.None?
                  && out.err in {None, Some(Api(Unavailable))}
                  && key in Arrive(s).world.objects
                  && var read := Arrive(s).world.objects[key];
                  && CheckDelete(p, read.labels, read.annotations).None?
                  && (!force ==> !NeedsForce(read)))
  {
    hide Valid, CheckDelete, Made, UnsafeToDelete, NeedsForce, Follows, Delete, Extends;
    MadeNothing(s, s);
    ArriveMade(s);
    var got := Get(s, ctx, key);
    GetFollows(s, ctx, key);
    if got.result.Success? {
      var read := got.result.value;
      if read.body.MachineBody? { UnsafeIffNeedsForce(read, force); } else { NotAMachine(read); }
      DeleteMade(got.sys, ctx, key);
      MadeAppend(s, got.sys, Delete(got.sys, ctx, key).sys);
    }
  }

  lemma NotAMachine(o: Object)
    requires !o.body.MachineBody?
    ensures !NeedsForce(o)
  {
  }

  /** Without faults and other writers, a call succeeds exactly if the object is there, passes CheckDelete and does
      not need a force that was not given; then just that object is gone, and otherwise the world is as it was. A
      state that passes CheckDelete is called invalid exactly if it needs a force that was not given. */
  lemma DeletionSucceedsIff(w: World, p: WritePolicy, ctx: Context, key: Key, force: bool)
    requires Valid(w) && key.kind in {Cluster, Machine}
    ensures var out := Erase(Sys(w, []), p, ctx, key, force);
            && (out.err.None? <==>
                  && !Done(ctx, w)
                  && key in w.objects
                  && CheckDelete(p, w.objects[key].labels, w.objects[key].annotations).None?
                  && (NeedsForce(w.objects[key]) ==> force))
            && (out.err.None? ==> out.sys.world.objects == w.objects - {key})
            && (out.err.Some? ==> out.sys == Sys(w, []))
            && (!Done(ctx, w) && key !in w.objects ==> out.err == Some(Api(NotFound)))
            && (!Done(ctx, w) && key in w.objects
                && CheckDelete(p, w.objects[key].labels, w.objects[key].annotations).None? ==>
                  (out.err == Some(Invalid) <==> NeedsForce(w.objects[key]) && !force))
  {
    hide Valid, CheckDelete, UnsafeToDelete, NeedsForce;
    CalmArrive(w);
    if key in w.objects {
      var o := w.objects[key];
      if o.body.MachineBody? { UnsafeIffNeedsForce(o, force); } else { NotAMachine(o); }
    }
  }
}
