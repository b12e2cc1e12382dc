/** The management cluster's API server as a store of typed objects, and the requests a client sends
    it. Everybody else who writes to the store, the clock, lost replies and disruption budgets are a
    script of turns: one turn is taken before each request, so a statement about every script is a
    statement about every interleaving. */
module Store {
  import opened Wrappers
  import opened Policy

  /******* Objects *******/

  datatype Kind =
    | Cluster | KubeadmControlPlane | MachineDeployment | Machine | Node | Pod
    | ConfigMap | Secret | ClusterResourceSet | ClusterClass

  datatype Key = Key(kind: Kind, namespace: string, name: string)

  datatype Reference = Reference(kind: string, namespace: string, name: string)

  datatype Condition = Condition(conditionType: string, status: string)

  /** Variables are kept as the JSON text of their values. */
  datatype WorkerTopology =
    WorkerTopology(workerClass: string, name: string, replicas: Option<int>, overrides: Metadata)

  datatype Topology = Topology(
    clusterClass: string, version: string, controlPlaneReplicas: Option<int>, workers: Option<seq<WorkerTopology>>,
    variables: Metadata)

  datatype ClusterNetwork =
    ClusterNetwork(pods: Option<seq<string>>, services: Option<seq<string>>, serviceDomain: string)

  /** The machines a MachineDeployment makes. */
  datatype Template = Template(
    clusterName: string, selector: Metadata, labels: Metadata, infrastructure: Reference, bootstrap: Reference)

  datatype ClusterStatus =
    ClusterStatus(phase: string, conditions: seq<Condition>, controlPlaneReady: bool, infrastructureReady: bool)

  datatype OwnerReference = OwnerReference(kind: string, controller: bool)

  datatype PodPhase = Pending | Running | Succeeded | Failed | Unknown

  datatype Body =
    | ClusterBody(topology: Option<Topology>, controlPlaneRef: Option<Reference>, infrastructureKind: Option<string>,
                  paused: bool, network: Option<ClusterNetwork>, status: ClusterStatus)
    | ControlPlaneBody(kcpVersion: string, kcpReplicas: Option<int>)
    | DeploymentBody(version: Option<string>, replicas: Option<int>, minReadySeconds: Option<int>,
                     nodeDrainTimeout: Option<int>, rolloutAfter: Option<nat>, template: Template)
    | MachineBody(nodeRef: Option<string>, conditions: seq<Condition>)
    | NodeBody(unschedulable: bool)
    | PodBody(nodeName: string, phase: PodPhase, owners: seq<OwnerReference>, emptyDirs: seq<bool>)
    | ConfigMapBody(data: Metadata)
    | SecretBody(secretType: string, secretData: Metadata)
    | ResourceSetBody(selector: Metadata, resources: seq<(string, string)>, strategy: string)
    | ClusterClassBody

  /** uid names the object for ever, rv is the resourceVersion of this state of it. */
  datatype Object = Object(uid: nat, rv: nat, labels: Metadata, annotations: Metadata, body: Body)

  function KindOf(body: Body): Kind {
    match body
    case ClusterBody(_, _, _, _, _, _) => Cluster
    case ControlPlaneBody(_, _) => KubeadmControlPlane
    case DeploymentBody(_, _, _, _, _, _) => MachineDeployment
    case MachineBody(_, _) => Machine
    case NodeBody(_) => Node
    case PodBody(_, _, _, _) => Pod
    case ConfigMapBody(_) => ConfigMap
    case SecretBody(_, _) => Secret
    case ResourceSetBody(_, _, _) => ClusterResourceSet
    case ClusterClassBody => ClusterClass
  }

  const MIRROR := "kubernetes.io/config.mirror"
  const CLUSTER_NAME := "cluster.x-k8s.io/cluster-name"

  predicate IsMirror(o: Object) {
    MIRROR in o.annotations
  }

  /** metav1.GetControllerOf: the first owner reference marked as the controller. */
  function ControllerOf(owners: seq<OwnerReference>): Option<OwnerReference> {
    if owners == [] then None
    else if owners[0].controller then Some(owners[0])
    else ControllerOf(owners[1..])
  }

  predicate IsDaemonSetPod(o: Object)
    requires o.body.PodBody?
  {
    var controller := ControllerOf(o.body.owners);
    controller.Some? && controller.value.kind == "DaemonSet"
  }

  predicate OnNode(o: Object, node: string) {
    o.body.PodBody? && o.body.nodeName == node
  }

  /** The pods that may still be bound to a cordoned node. */
  predicate Exempt(o: Object) {
    o.body.PodBody? && (IsMirror(o) || IsDaemonSetPod(o))
  }

  /******* The world *******/

  datatype Actor = Ours | Others

  datatype EvictionAnswer = Accepted | Missing | TooMany | Unanswered

  /** What the server has seen, in order. hit is the uid of the pod whose eviction it accepted. */
  datatype Event =
    | Write(actor: Actor, key: Key, before: Option<Object>, after: Option<Object>)
    | Eviction(pod: Key, hit: Option<nat>, answer: EvictionAnswer)

  type Objects = map<Key, Object>

  /** index is the order in which lists return keys; nextUid and rv are above everything in use. */
  datatype World = World(
    objects: Objects, index: seq<Key>, nextUid: nat, rv: nat, now: nat, cancelled: bool, history: seq<Event>)

  /** Every object has a name, and every object but a Node lives in a namespace. */
  predicate Nameable(key: Key) {
    key.name != "" && (key.namespace == "" <==> key.kind == Node)
  }

  ghost predicate Valid(w: World) {
    && (forall k | k in w.objects ::
          && KindOf(w.objects[k].body) == k.kind
          && Nameable(k)
          && w.objects[k].rv < w.rv
          && w.objects[k].uid < w.nextUid
          && k in w.index)
    && (forall k, l | k in w.objects && l in w.objects && w.objects[k].uid == w.objects[l].uid :: k == l)
    && (forall i, j | 0 <= i < j < |w.index| :: w.index[i] != w.index[j])
  }

  function Lookup(objects: Objects, key: Key): Option<Object> {
    if key in objects then Some(objects[key]) else None
  }

  function Stored(objects: Objects, key: Key, after: Option<Object>): Objects {
    match after
    case Some(o) => objects[key := o]
    case None => objects - {key}
  }

  /** The one way the store changes: a state is stored under a new resourceVersion, or removed. */
  function Commit(w: World, actor: Actor, key: Key, after: Option<Object>): World {
    var stored := if after.Some? then Some(after.value.(rv := w.rv)) else None;
    w.(objects := Stored(w.objects, key, stored),
       index := if stored.Some? && key !in w.index then w.index + [key] else w.index,
       nextUid := if stored.Some? && stored.value.uid >= w.nextUid then stored.value.uid + 1 else w.nextUid,
       rv := w.rv + 1,
       history := w.history + [Write(actor, key, Lookup(w.objects, key), stored)])
  }

  predicate Cordoned(w: World, node: string) {
    var key := Key(Node, "", node);
    key in w.objects && w.objects[key].body.NodeBody? && w.objects[key].body.unschedulable
  }

  /******* Everybody else *******/

  datatype Step = Put(key: Key, state: Object) | Remove(key: Key) | Elapse(duration: nat) | Cancel

  /** A bound pod stays bound to its node. */
  predicate Continues(before: Object, after: Object) {
    before.body.PodBody? && before.body.nodeName != "" ==> OnNode(after, before.body.nodeName)
  }

  /** The environment's rules: an object keeps its uid and a new one gets a new uid; a pod is never
      rebound; only exempt pods are bound to a cordoned node. */
  predicate Legal(w: World, step: Step) {
    match step
    case Put(key, o) =>
      && KindOf(o.body) == key.kind
      && Nameable(key)
      && (if key in w.objects then o.uid == w.objects[key].uid && Continues(w.objects[key], o) else o.uid >= w.nextUid)
      && (BindsToCordoned(w, key, o) ==> Exempt(o))
    case _ => true
  }

  predicate BindsToCordoned(w: World, key: Key, o: Object) {
    && o.body.PodBody?
    && o.body.nodeName != ""
    && Cordoned(w, o.body.nodeName)
    && !(key in w.objects && OnNode(w.objects[key], o.body.nodeName))
  }

  function Take(w: World, step: Step): (w': World)
    ensures w'.now >= w.now
  {
    if !Legal(w, step) then w
    else
      match step
      case Put(key, o) => Commit(w, Others, key, Some(o))
      case Remove(key) => if key in w.objects then Commit(w, Others, key, None) else w
      case Elapse(duration) => w.(now := w.now + duration)
      case Cancel => w.(cancelled := true)
  }

  function TakeAll(w: World, steps: seq<Step>): (w': World)
    ensures w'.now >= w.now
    decreases |steps|
  {
    if steps == [] then w else TakeAll(Take(w, steps[0]), steps[1..])
  }

  /******* Requests *******/

  /** Dropped: the request never takes effect. LostReply: it does, but the caller sees an error. */
  datatype Fault = Delivered | Dropped | LostReply

  /** What precedes and surrounds one request; allows is the disruption budgets' answer to an eviction,
      timer which ready case a select picks. */
  datatype Turn = Turn(steps: seq<Step>, fault: Fault, allows: bool, timer: bool)

  const QUIET := Turn([], Delivered, true, true)

  datatype Sys = Sys(world: World, script: seq<Turn>)

  function Head(s: Sys): Turn {
    if s.script == [] then QUIET else s.script[0]
  }

  function Arrive(s: Sys): Sys {
    Sys(TakeAll(s.world, Head(s).steps), if s.script == [] then [] else s.script[1..])
  }

  datatype Context = Context(deadline: Option<nat>)

  predicate Done(ctx: Context, w: World) {
    w.cancelled || (ctx.deadline.Some? && w.now >= ctx.deadline.value)
  }

  /** context.WithTimeout: the parent's deadline still applies. */
  function WithTimeout(parent: Context, w: World, timeout: nat): Context {
    if parent.deadline.Some? && parent.deadline.value <= w.now + timeout then parent
    else Context(Some(w.now + timeout))
  }

  /** Unavailable stands for every error the code does not tell apart: an expired context, a
      transport failure, a request the server rejects. */
  datatype ApiError = NotFound | AlreadyExists | Conflict | Unavailable

  datatype Reply<+T> = Reply(sys: Sys, result: Result<T, ApiError>)

  datatype Item = Item(key: Key, state: Object)

  /** A list request; an empty namespace, cluster name or node name selects everything. */
  datatype Query = Query(kind: Kind, namespace: string, clusterName: string, nodeName: string)

  predicate Selects(q: Query, key: Key, o: Object) {
    && key.kind == q.kind
    && (q.namespace == "" || key.namespace == q.namespace)
    && (q.clusterName == "" || (CLUSTER_NAME in o.labels && o.labels[CLUSTER_NAME] == q.clusterName))
    && (q.nodeName == "" || OnNode(o, q.nodeName))
  }

  function Items(objects: Objects, index: seq<Key>, q: Query): seq<Item> {
    if index == [] then []
    else if index[0] in objects && Selects(q, index[0], objects[index[0]]) then
      [Item(index[0], objects[index[0]])] + Items(objects, index[1..], q)
    else
      Items(objects, index[1..], q)
  }

  predicate Reaches(ctx: Context, s: Sys) {
    !Done(ctx, Arrive(s).world) && Head(s).fault != Dropped
  }

  predicate Answers(ctx: Context, s: Sys) {
    !Done(ctx, Arrive(s).world) && Head(s).fault == Delivered
  }

  function Get(s: Sys, ctx: Context, key: Key): Reply<Object> {
    var t := Arrive(s);
    Reply(t,
          if !Answers(ctx, s) then Failure(Unavailable)
          else if key in t.world.objects then Success(t.world.objects[key])
          else Failure(NotFound))
  }

  function List(s: Sys, ctx: Context, q: Query): Reply<seq<Item>> {
    var t := Arrive(s);
    Reply(t,
          if !Answers(ctx, s) then Failure(Unavailable)
          else Success(Items(t.world.objects, t.world.index, q)))
  }

  /** Update replaces a state only if the caller holds its resourceVersion. */
  function Update(s: Sys, ctx: Context, key: Key, o: Object): Reply<Object> {
    var t := Arrive(s);
    if !Reaches(ctx, s) then Reply(t, Failure(Unavailable))
    else
      var replaced := key in t.world.objects && t.world.objects[key].rv == o.rv && t.world.objects[key].uid == o.uid;
      var w := if replaced then Commit(t.world, Ours, key, Some(o)) else t.world;
      Reply(t.(world := w),
            if !Answers(ctx, s) then Failure(Unavailable)
            else if key !in t.world.objects then Failure(NotFound)
            else if !replaced then Failure(Conflict)
            else Success(w.objects[key]))
  }

  /** The server creates no object without a name, and none without a namespace but Nodes. */
  function Create(s: Sys, ctx: Context, key: Key, labels: Metadata, body: Body): Reply<Object> {
    var t := Arrive(s);
    if !Reaches(ctx, s) || !Nameable(key) then Reply(t, Failure(Unavailable))
    else
      var taken := key in t.world.objects;
      var w := if taken then t.world
               else Commit(t.world, Ours, key, Some(Object(t.world.nextUid, t.world.rv, labels, map[], body)));
      Reply(t.(world := w),
            if !Answers(ctx, s) then Failure(Unavailable)
            else if taken then Failure(AlreadyExists)
            else Success(w.objects[key]))
  }

  /** Delete names only the key: it carries neither a uid nor a resourceVersion. */
  function Delete(s: Sys, ctx: Context, key: Key): Reply<()> {
    var t := Arrive(s);
    if !Reaches(ctx, s) then Reply(t, Failure(Unavailable))
    else
      var found := key in t.world.objects;
      Reply(if found then t.(world := Commit(t.world, Ours, key, None)) else t,
            if !Answers(ctx, s) then Failure(Unavailable)
            else if found then Success(())
            else Failure(NotFound))
  }

  datatype EvictReply = EvictReply(sys: Sys, answer: EvictionAnswer)

  /** An accepted eviction starts the pod's deletion, which the environment completes. */
  function Evict(s: Sys, ctx: Context, key: Key): EvictReply {
    var t := Arrive(s);
    if Done(ctx, t.world) then EvictReply(t, Unanswered)
    else
      var verdict := if Head(s).fault == Dropped then Unanswered
                     else if key !in t.world.objects then Missing
                     else if !Head(s).allows then TooMany
                     else Accepted;
      var hit := if verdict == Accepted then Some(t.world.objects[key].uid) else None;
      var answer := if Head(s).fault == Delivered then verdict else Unanswered;
      EvictReply(t.(world := t.world.(history := t.world.history + [Eviction(key, hit, answer)])), answer)
  }

  const POLL_INTERVAL: nat := 5_000_000_000

  datatype Wake = Wake(sys: Sys, timer: bool)

  /** select on ctx.Done and time.After(drainPollInterval): a late wake-up may find both ready and take
      either, and a timer never fires early. */
  function Select(s: Sys, ctx: Context): Wake {
    var t := Arrive(s);
    var fires := s.world.now + POLL_INTERVAL;
    var doneFirst := Done(ctx, t.world) || (ctx.deadline.Some? && ctx.deadline.value <= fires);
    if Head(s).timer || !doneFirst then
      Wake(t.(world := t.world.(now := if t.world.now < fires then fires else t.world.now)), true)
    else if Done(ctx, t.world) then
      Wake(t, false)
    else
      Wake(t.(world := t.world.(now := ctx.deadline.value)), false)
  }
}
