/** Which tools a server offers, how it annotates them, and what the offered tools can do to the store
    (pkg/mcp/handlers/registry.go, pkg/mcp/handlers/readonly.go). */
module Tools {
  import opened Wrappers
  import opened Policy
  import opened Store
  import opened Interleaving
  import opened Footprint
  import opened Changes
  import opened Capi
  import opened Gated
  import opened Scaling
  import opened Upgrade
  import opened ResourceSets
  import opened Runs
  import opened Listing
  import opened Idempotence

  /** One constructor for every registered name; any other name is Unregistered. */
  datatype Tool =
    | ToolCreateCluster | ToolListClusters | ToolGetCluster | ToolClusterStatus | ToolClusterHealth | ToolScaleCluster
    | ToolGetKubeconfig | ToolKubectl | ToolHelm | ToolPauseCluster | ToolResumeCluster | ToolDeleteCluster
    | ToolUpgradeCluster | ToolUpdateCluster | ToolMoveCluster | ToolBackupCluster
    | ToolCreateResourceSet | ToolListResourceSets | ToolGetResourceSet | ToolDeleteResourceSet
    | ToolListMachines | ToolGetMachine | ToolDeleteMachine | ToolRemediateMachine | ToolListDeployments
    | ToolCreateDeployment | ToolScaleDeployment | ToolUpdateDeployment | ToolRolloutDeployment | ToolListMachineSets
    | ToolGetMachineSet | ToolDrainNode | ToolCordonNode | ToolNodeStatus
    | ToolListProviders | ToolGetProviderConfig | ToolAwsListClusters | ToolAwsGetCluster | ToolAwsGetMachineTemplate
    | ToolAzureListClusters | ToolAzureGetCluster | ToolGcpListClusters | ToolGcpGetCluster | ToolVsphereListClusters
    | ToolVsphereGetCluster
    | Unregistered(name: string)

  const CLUSTER_TOOLS: seq<Tool> := [
    ToolCreateCluster, ToolListClusters, ToolGetCluster, ToolClusterStatus, ToolClusterHealth, ToolScaleCluster,
    ToolGetKubeconfig, ToolKubectl, ToolHelm, ToolPauseCluster, ToolResumeCluster, ToolDeleteCluster,
    ToolUpgradeCluster, ToolUpdateCluster, ToolMoveCluster, ToolBackupCluster
  ]

  const RESOURCE_SET_TOOLS: seq<Tool> := [
    ToolCreateResourceSet, ToolListResourceSets, ToolGetResourceSet, ToolDeleteResourceSet
  ]

  const MACHINE_TOOLS: seq<Tool> := [
    ToolListMachines, ToolGetMachine, ToolDeleteMachine, ToolRemediateMachine, ToolListDeployments,
    ToolCreateDeployment, ToolScaleDeployment, ToolUpdateDeployment, ToolRolloutDeployment, ToolListMachineSets,
    ToolGetMachineSet, ToolDrainNode, ToolCordonNode, ToolNodeStatus
  ]

  const PROVIDER_TOOLS: seq<Tool> := [
    ToolListProviders, ToolGetProviderConfig, ToolAwsListClusters, ToolAwsGetCluster, ToolAwsGetMachineTemplate,
    ToolAzureListClusters, ToolAzureGetCluster, ToolGcpListClusters, ToolGcpGetCluster, ToolVsphereListClusters,
    ToolVsphereGetCluster
  ]

  /** buildTools. */
  function BuildTools(): seq<Tool> {
    CLUSTER_TOOLS + RESOURCE_SET_TOOLS + MACHINE_TOOLS + PROVIDER_TOOLS
  }

  const READ_ONLY_TOOLS: set<Tool> := {
    ToolListClusters, ToolGetCluster, ToolClusterStatus, ToolClusterHealth, ToolBackupCluster, ToolMoveCluster,
    ToolListMachines, ToolGetMachine, ToolListMachineSets, ToolGetMachineSet, ToolNodeStatus, ToolListDeployments,
    ToolListProviders, ToolGetProviderConfig, ToolAwsListClusters, ToolAwsGetCluster, ToolAwsGetMachineTemplate,
    ToolAzureListClusters, ToolAzureGetCluster, ToolGcpListClusters, ToolGcpGetCluster, ToolVsphereListClusters,
    ToolVsphereGetCluster, ToolListResourceSets, ToolGetResourceSet
  }

  const MUTATING_TOOLS: set<Tool> := {
    ToolCreateCluster, ToolScaleCluster, ToolPauseCluster, ToolResumeCluster, ToolDeleteCluster, ToolUpgradeCluster,
    ToolUpdateCluster, ToolDeleteMachine, ToolRemediateMachine, ToolCreateDeployment, ToolScaleDeployment,
    ToolUpdateDeployment, ToolRolloutDeployment, ToolDrainNode, ToolCordonNode, ToolCreateResourceSet,
    ToolDeleteResourceSet, ToolKubectl, ToolHelm
  }

  const CREDENTIAL_TOOLS: set<Tool> := {ToolGetKubeconfig}

  const ADDITIVE_TOOLS: set<Tool> := {ToolCreateCluster, ToolCreateDeployment, ToolCreateResourceSet}

  const IDEMPOTENT_WRITES: set<Tool> := {
    ToolScaleCluster, ToolPauseCluster, ToolResumeCluster, ToolUpdateCluster, ToolScaleDeployment, ToolUpdateDeployment,
    ToolCordonNode
  }

  /******* The filter *******/

  datatype Hints = Hints(readOnly: bool, destructive: bool, idempotent: bool, openWorld: bool)

  function AnnotationsFor(tool: Tool): Hints {
    if tool in READ_ONLY_TOOLS || tool in CREDENTIAL_TOOLS then Hints(true, false, true, false)
    else Hints(false, tool !in ADDITIVE_TOOLS, tool in IDEMPOTENT_WRITES, false)
  }

  datatype Registration = Registration(tool: Tool, hints: Hints)

  /** What the switch in the loop lets through. */
  predicate Offered(tool: Tool, p: WritePolicy) {
    if tool in CREDENTIAL_TOOLS then p.exposeKubeconfig
    else tool in MUTATING_TOOLS ==> !p.readOnly
  }

  function Filtered(tools: seq<Tool>, p: WritePolicy): seq<Registration> {
    if tools == [] then []
    else
      var earlier := Filtered(tools[..|tools| - 1], p);
      var last := tools[|tools| - 1];
      if Offered(last, p) then earlier + [Registration(last, AnnotationsFor(last))] else earlier
  }

  method BuildAllTools(p: WritePolicy) returns (filtered: seq<Registration>)
    ensures filtered == Filtered(BuildTools(), p)
  {
    hide AnnotationsFor, BuildTools;
    var tools := BuildTools();
    filtered := [];
    var i := 0;
    while i < |tools|
      invariant i <= |tools| && filtered == Filtered(tools[..i], p)
    {
      var tool := tools[i];
      assert tools[..i + 1][..i] == tools[..i];
      i := i + 1;
      if tool in CREDENTIAL_TOOLS {
        if !p.exposeKubeconfig { continue; }
      } else if tool in MUTATING_TOOLS {
        if p.readOnly { continue; }
      }
      filtered := filtered + [Registration(tool, AnnotationsFor(tool))];
    }
    assert tools[..i] == tools;
  }

  /** Exactly the tools the policy lets through, each under the annotations of its class. */
  lemma {:induction false} FilteredHasOffered(tools: seq<Tool>, p: WritePolicy, r: Registration)
    ensures r in Filtered(tools, p) <==> r.tool in tools && Offered(r.tool, p) && r.hints == AnnotationsFor(r.tool)
  {
    hide AnnotationsFor, Offered;
    if tools != [] {
      FilteredHasOffered(tools[..|tools| - 1], p, r);
      assert tools == tools[..|tools| - 1] + [tools[|tools| - 1]];
    }
  }

  /** Exactly one of three. */
  predicate ExactlyOne(a: bool, b: bool, c: bool) {
    (a || b || c) && !(a && b) && !(a && c) && !(b && c)
  }

  predicate Classified(tool: Tool) {
    tool in READ_ONLY_TOOLS || tool in MUTATING_TOOLS || tool in CREDENTIAL_TOOLS
  }

  lemma ClassesAreDisjoint(tool: Tool)
    ensures !(tool in READ_ONLY_TOOLS && tool in MUTATING_TOOLS)
    ensures tool in CREDENTIAL_TOOLS ==> tool !in READ_ONLY_TOOLS && tool !in MUTATING_TOOLS
  {
  }

  lemma BuiltAreKnown(tool: Tool)
    ensures tool.Unregistered? ==> tool !in BuildTools() && !Classified(tool)
  {
  }

  lemma KnownAreClassified(tool: Tool)
    ensures !tool.Unregistered? ==> Classified(tool)
  {
  }

  lemma ReadersAreBuilt(tool: Tool)
    ensures tool in READ_ONLY_TOOLS ==> tool in BuildTools()
  {
  }

  lemma WritersAreBuilt(tool: Tool)
    ensures tool in MUTATING_TOOLS || tool in CREDENTIAL_TOOLS ==> tool in BuildTools()
  {
  }

  /** There are as many places as registered names, so no tool is built twice. */
  lemma BuiltOnce()
    ensures |BuildTools()| == 45
  {
  }

  /** Every built tool is in exactly one class, and the classes list no other. */
  lemma EveryBuiltToolHasOneClass(tool: Tool)
    ensures tool in BuildTools() <==> !tool.Unregistered?
    ensures tool in BuildTools() <==>
            ExactlyOne(tool in READ_ONLY_TOOLS, tool in MUTATING_TOOLS, tool in CREDENTIAL_TOOLS)
  {
    hide BuildTools;
    ClassesAreDisjoint(tool);
    BuiltAreKnown(tool);
    KnownAreClassified(tool);
    ReadersAreBuilt(tool);
    WritersAreBuilt(tool);
  }

  /** The filter and the client's own checks agree: a server offers a built tool exactly if it only reads, hands
      out credentials that the client would hand out, or writes where the client would create. */
  lemma OfferedIffItsClassMay(tool: Tool, p: WritePolicy)
    requires tool in BuildTools()
    ensures Registration(tool, AnnotationsFor(tool)) in Filtered(BuildTools(), p) <==>
            || tool in READ_ONLY_TOOLS
            || (tool in CREDENTIAL_TOOLS && CheckCredentialExport(p).None?)
            || (tool in MUTATING_TOOLS && CheckCreate(p).None?)
  {
    hide BuildTools, AnnotationsFor;
    FilteredHasOffered(BuildTools(), p, Registration(tool, AnnotationsFor(tool)));
    EveryBuiltToolHasOneClass(tool);
    ClassesAreDisjoint(tool);
  }

  /** A name in no class is offered by every server, also a read-only one, although its own annotations call it a
      destructive write. */
  lemma UnclassifiedToolIsOffered(tools: seq<Tool>, tool: Tool, p: WritePolicy)
    requires tool in tools && !Classified(tool)
    ensures Registration(tool, Hints(false, true, false, false)) in Filtered(tools, p)
  {
    FilteredHasOffered(tools, p, Registration(tool, Hints(false, true, false, false)));
  }

  /** A read-only server hides every tool that is not read-only, whatever tools are built, exactly if every built
      tool is classified and the server exposes no credentials a built tool could hand out. */
  lemma ReadOnlyServerHidesTheRestIff(tools: seq<Tool>, p: WritePolicy)
    requires p.readOnly
    ensures (forall r | r in Filtered(tools, p) :: r.tool in READ_ONLY_TOOLS) <==>
            (forall tool | tool in tools :: Classified(tool) && (tool in CREDENTIAL_TOOLS ==> !p.exposeKubeconfig))
  {
    hide AnnotationsFor, Filtered;
    forall tool | tool in tools && (!Classified(tool) || (tool in CREDENTIAL_TOOLS && p.exposeKubeconfig))
      ensures exists r :: r in Filtered(tools, p) && r.tool !in READ_ONLY_TOOLS
    {
      ClassesAreDisjoint(tool);
      FilteredHasOffered(tools, p, Registration(tool, AnnotationsFor(tool)));
      assert Registration(tool, AnnotationsFor(tool)) in Filtered(tools, p);
    }
    forall r | r in Filtered(tools, p) ensures r.tool in tools && Offered(r.tool, p) {
      FilteredHasOffered(tools, p, r);
    }
  }

  /** The annotations of an offered tool say whether it writes: read-only tools and credential tools do not. */
  lemma HintsTellTheClass(tool: Tool)
    requires tool in BuildTools()
    ensures AnnotationsFor(tool).readOnly <==> tool !in MUTATING_TOOLS
    ensures AnnotationsFor(tool).destructive <==> tool in MUTATING_TOOLS && tool !in ADDITIVE_TOOLS
    ensures AnnotationsFor(tool).idempotent <==> tool !in MUTATING_TOOLS || tool in IDEMPOTENT_WRITES
    ensures !AnnotationsFor(tool).openWorld
  {
    hide BuildTools;
    EveryBuiltToolHasOneClass(tool);
    ClassesAreDisjoint(tool);
  }

  /******* What a tool's handler may call *******/

  /** The client calls a handler makes: reads and, for a mutating tool, the call it is named after. The listing and
      status tools make the modelled queries, other read tools any reads; the exec tools act on workload clusters
      and only read this store. */
  predicate Issues(tool: Tool, call: Call) {
    match tool
    case ToolListClusters => call.ListClusters?
    case ToolClusterStatus => call.ReadStatus?
    case ToolGetCluster => call.ReadStatus? || call.Look?
    case ToolDeleteCluster => call.ReadStatus? || call.DeleteCluster?
    case ToolUpgradeCluster => call.ReadStatus? || call.UpgradeCluster?
    case ToolCreateCluster => call.CreateCluster?
    case ToolScaleCluster => call.ScaleCluster?
    case ToolPauseCluster => call.Modify? && call.change.Pause?
    case ToolResumeCluster => call.Modify? && call.change.Resume?
    case ToolUpdateCluster => call.Modify? && call.change.Relabel?
    case ToolDeleteMachine => call.DeleteMachine?
    case ToolRemediateMachine => call.Look? || (call.Modify? && call.change.Remediate?)
    case ToolCreateDeployment => call.CreateDeployment?
    case ToolScaleDeployment => call.Look? || (call.Modify? && call.change.ScaleDeployment?)
    case ToolUpdateDeployment => call.Modify? && call.change.Configure?
    case ToolRolloutDeployment => call.Modify? && call.change.Rollout?
    case ToolDrainNode => call.DrainNode?
    case ToolCordonNode => call.CordonNode?
    case ToolCreateResourceSet => call.CreateResourceSet?
    case ToolDeleteResourceSet => call.DeleteResourceSet?
    case _ => call.Look?
  }

  predicate IsRead(call: Call) {
    call.Look? || call.ListClusters? || call.ReadStatus?
  }

  /** The tools that run a program on a workload cluster. */
  predicate Executes(tool: Tool) {
    tool == ToolKubectl || tool == ToolHelm
  }

  ghost predicate MayWrite(tool: Tool) {
    exists call :: Issues(tool, call) && !IsRead(call)
  }

  /** Some write that a mutating tool may make. */
  function SomeWrite(tool: Tool): Call
    requires tool in MUTATING_TOOLS && !Executes(tool)
  {
    var node := NodeOptions("", "", "", false, false, false, 0, false);
    match tool
    case ToolCreateCluster => CreateCluster(CreateClusterOptions("", "", "", "", 0, [], map[], None))
    case ToolScaleCluster => ScaleCluster(ScaleOptions("", "", "", 0, ""))
    case ToolPauseCluster => Modify("", "", Pause)
    case ToolResumeCluster => Modify("", "", Resume)
    case ToolDeleteCluster => DeleteCluster("", "")
    case ToolUpgradeCluster => UpgradeCluster(UpgradeOptions("", "", "", false))
    case ToolUpdateCluster => Modify("", "", Relabel(None, None))
    case ToolDeleteMachine => DeleteMachine("", "", false)
    case ToolRemediateMachine => Modify("", "", Remediate)
    case ToolCreateDeployment =>
      var none := Reference("", "", "");
      CreateDeployment(CreateDeploymentOptions("", "", "", 0, 0, None, map[], "", none, none))
    case ToolScaleDeployment => Modify("", "", ScaleDeployment(0))
    case ToolUpdateDeployment => Modify("", "", Configure(None, None, None, None, None, None))
    case ToolRolloutDeployment => Modify("", "", Rollout(""))
    case ToolDrainNode => DrainNode(node)
    case ToolCordonNode => CordonNode(node)
    case ToolCreateResourceSet => CreateResourceSet(SetOptions("", "", map[], "", []))
    case ToolDeleteResourceSet => DeleteResourceSet("", "")
  }

  lemma SomeWriteIsIssued(tool: Tool)
    requires tool in MUTATING_TOOLS && !Executes(tool)
    ensures Issues(tool, SomeWrite(tool)) && !IsRead(SomeWrite(tool))
    ensures tool !in IDEMPOTENT_WRITES ==> !Repeatable(SomeWrite(tool))
    ensures tool !in ADDITIVE_TOOLS ==> !Creates(SomeWrite(tool))
  {
  }

  predicate Creates(call: Call) {
    call.CreateCluster? || call.CreateDeployment? || call.CreateResourceSet?
  }

  /** The classes and the hints say what a built tool may do: it is mutating exactly if it runs programs or makes a
      call that is not a read; of these, idempotent exactly if it runs none and all the writes it may make are
      repeatable, and additive exactly if it runs none and they only create. */
  lemma ClassesFollowTheCalls(tool: Tool)
    requires tool in BuildTools()
    ensures tool in MUTATING_TOOLS <==> Executes(tool) || MayWrite(tool)
    ensures tool in IDEMPOTENT_WRITES <==>
            MayWrite(tool) && !Executes(tool) && forall call | Issues(tool, call) :: IsRead(call) || Repeatable(call)
    ensures tool in ADDITIVE_TOOLS <==>
            MayWrite(tool) && !Executes(tool) && forall call | Issues(tool, call) :: IsRead(call) || Creates(call)
  {
    hide BuildTools;
    EveryBuiltToolHasOneClass(tool);
    ExecutorsAreMutating(tool);
    if tool in MUTATING_TOOLS && !Executes(tool) { SomeWriteIsIssued(tool); }
    forall call | Issues(tool, call) && !IsRead(call)
      ensures tool in MUTATING_TOOLS
      ensures tool in IDEMPOTENT_WRITES ==> Repeatable(call)
      ensures tool in ADDITIVE_TOOLS ==> Creates(call)
    {
      if tool !in MUTATING_TOOLS { ReadersOnlyRead(tool, call); }
      if tool in IDEMPOTENT_WRITES { IdempotentToolsMakeRepeatableCalls(tool, call); }
      if tool in ADDITIVE_TOOLS { AdditiveToolsMakeCreations(tool, call); }
    }
  }

  lemma ExecutorsAreMutating(tool: Tool)
    ensures Executes(tool) ==> tool in MUTATING_TOOLS
    ensures Executes(tool) || tool !in MUTATING_TOOLS ==> tool !in IDEMPOTENT_WRITES && tool !in ADDITIVE_TOOLS
  {
  }

  lemma AdditiveToolsMakeCreations(tool: Tool, call: Call)
    requires tool in ADDITIVE_TOOLS && Issues(tool, call) && !IsRead(call)
    ensures Creates(call)
  {
  }

  /** The tools that run programs are offered, as destructive writes, exactly by a server that is not read-only. */
  lemma ExecutorsAreOfferedIff(tool: Tool, p: WritePolicy, hints: Hints)
    requires Executes(tool)
    ensures Registration(tool, hints) in Filtered(BuildTools(), p) <==>
            !p.readOnly && hints == Hints(false, true, false, false)
  {
    hide Filtered;
    FilteredHasOffered(BuildTools(), p, Registration(tool, hints));
    ExecutorsAreMutating(tool);
    WritersAreBuilt(tool);
  }

  ghost predicate FromOfferedTool(call: Call, p: WritePolicy) {
    exists r :: r in Filtered(BuildTools(), p) && Issues(r.tool, call)
  }

  /** Each call is made by some tool the server offers. */
  ghost predicate FromOfferedTools(requests: seq<Request>, p: WritePolicy) {
    forall i | 0 <= i < |requests| :: FromOfferedTool(requests[i].call, p)
  }

  /** A read call, also the modelled status queries, causes no event. */
  lemma ReadsCauseNoEvent(s: Sys, p: WritePolicy, ctx: Context, call: Call)
    requires Valid(s.world) && IsRead(call)
    ensures OnlyReads(s, Perform(s, p, ctx, call))
  {
    hide Valid, Follows, Made, SingleStatus, ListStatuses;
    match call {
      case ListClusters(namespace, filter) => ListStatusesOnlyReads(s, ctx, namespace, filter);
      case ReadStatus(namespace, name) => SingleStatusOnlyReads(s, ctx, namespace, name);
      case Look(requests) => WatchFollows(s, requests);
    }
  }

  lemma {:induction false} ReadersCauseNoEvent(s: Sys, p: WritePolicy, requests: seq<Request>)
    requires Valid(s.world) && forall i | 0 <= i < |requests| :: IsRead(requests[i].call)
    ensures OnlyReads(s, Run(s, p, requests))
    decreases |requests|
  {
    hide Valid, OnlyReads, Follows, Perform;
    if requests == [] {
      ReadsNothing(s);
    } else {
      var t := Serve(s, p, requests[0]);
      BeginReads(s);
      FollowsGives(s, Begin(s));
      ReadsCauseNoEvent(Begin(s), p, requests[0].ctx, requests[0].call);
      ReadsMore(s, Begin(s), t);
      assert forall i | 0 <= i < |requests| - 1 :: requests[1..][i] == requests[i + 1];
      ReadersCauseNoEvent(t, p, requests[1..]);
      ReadsMore(s, t, Run(s, p, requests));
    }
  }

  lemma BeginReads(s: Sys)
    ensures OnlyReads(s, Begin(s)) && Follows(s, Begin(s))
  {
    BeginFollows(s);
    MadeNothing(s, Begin(s));
  }

  /** Whatever sequence of calls the offered tools make, a read-only server causes no event at the API server;
      without other writers the store stays exactly as it is. This needs no check in the client. */
  lemma ReadOnlyServerChangesNothing(s: Sys, p: WritePolicy, requests: seq<Request>)
    requires Valid(s.world) && p.readOnly && FromOfferedTools(requests, p)
    ensures var t := Run(s, p, requests);
            OnlyReads(s, t) && (Quiet(s.script) ==> t.world.objects == s.world.objects)
  {
    hide Valid, Run, Made, BuildTools, Filtered, Follows, Quiet, AnnotationsFor, FromOfferedTool;
    forall i | 0 <= i < |requests| ensures IsRead(requests[i].call) {
      OfferedToolsOnlyRead(requests[i].call, p);
    }
    ReadersCauseNoEvent(s, p, requests);
    FollowsGives(s, Run(s, p, requests));
    if Quiet(s.script) { NothingMadeNothingChanged(s, Run(s, p, requests)); }
  }

  lemma OfferedToolsOnlyRead(call: Call, p: WritePolicy)
    requires p.readOnly && FromOfferedTool(call, p)
    ensures IsRead(call)
  {
    hide BuildTools, Filtered, AnnotationsFor, Issues;
    var r :| r in Filtered(BuildTools(), p) && Issues(r.tool, call);
    FilteredHasOffered(BuildTools(), p, r);
    EveryBuiltToolHasOneClass(r.tool);
    ReadersOnlyRead(r.tool, call);
  }

  lemma ReadersOnlyRead(tool: Tool, call: Call)
    requires Issues(tool, call) && Classified(tool) && tool !in MUTATING_TOOLS
    ensures IsRead(call)
  {
  }

  lemma NothingMadeNothingChanged(s: Sys, t: Sys)
    requires OnlyOurs(s.world, t.world) && Recorded(s.world, t.world) && Made(s, t) == []
    ensures t.world.objects == s.world.objects
  {
    QuietHistory(s, t);
    assert Since(s.world, t.world) == [];
  }

  /******* The hints *******/

  /** The idempotent hint is true: a second identical call of such a tool leaves the store as the first did, from
      every store and under every policy. */
  lemma IdempotentToolsAreIdempotent(w: World, p: WritePolicy, ctx: Context, tool: Tool, call: Call)
    requires Valid(w) && tool in IDEMPOTENT_WRITES && Issues(tool, call)
    ensures var once := Perform(Sys(w, []), p, ctx, call);
            && Valid(once.world)
            && Content(Perform(once, p, ctx, call).world.objects) == Content(once.world.objects)
  {
    hide Valid, Content;
    if call.Look? {
      CalmWatch(w, call.requests);
    } else {
      hide Perform;
      IdempotentToolsMakeRepeatableCalls(tool, call);
      CallIsIdempotent(w, p, ctx, call);
    }
  }

  lemma IdempotentToolsMakeRepeatableCalls(tool: Tool, call: Call)
    requires tool in IDEMPOTENT_WRITES && Issues(tool, call) && !IsRead(call)
    ensures Repeatable(call)
  {
  }

  lemma {:induction false} CalmWatch(w: World, requests: nat)
    ensures Watch(Sys(w, []), requests) == Sys(w, [])
    decreases requests
  {
    CalmArrive(w);
    if requests > 0 { CalmWatch(w, requests - 1); }
  }

  /** The other two additive tools do only create: no object that exists is changed. */
  lemma AdditiveToolsOnlyCreate(s: Sys, p: WritePolicy, ctx: Context, tool: Tool, call: Call)
    requires Valid(s.world)
    requires tool in {ToolCreateCluster, ToolCreateDeployment} && Issues(tool, call)
    ensures var t := Perform(s, p, ctx, call);
            && Extends(s, t)
            && forall e | e in Made(s, t) :: e.Write? && e.before.None? && e.after.Some?
  {
    hide Valid, Made, MakeCluster, MakeDeployment;
    match call {
      case CreateCluster(opts) => MakeClusterMade(s, p, ctx, opts);
      case CreateDeployment(opts) => MakeDeploymentMade(s, p, ctx, opts);
    }
  }
}
