// The status engine: what it computes from the cluster and what it stores.
module Status {
  import opened Text
  import opened Resource
  import opened Versions

  datatype PodStatus = PodStatus(available: string, desired: string, failed: string)

  datatype Counts = Counts(desired: int, available: int, unavailable: int)

  datatype Condition = Condition(kind: string, status: string)

  datatype Pod = Pod(phase: string, conditions: seq<Condition>)

  // What the engine reads: the controller's Deployment, the DaemonSet's desired count, the
  // node pods, and the modules whose own status check passes.
  datatype View = View(deployment: Result<Counts>, daemonSet: Result<int>, pods: Result<seq<Pod>>, runs: set<string>)

  // The parts of a resource the engine reads; marshalled is the resource without its status
  // and managed fields, as JSON.
  datatype Instance = Instance(name: string, driver: string, replicas: int, modules: seq<Module>, annotation: string, marshalled: string)

  datatype Report = Report(state: string, controller: PodStatus, node: PodStatus, last: string)

  const Succeeded := "Succeeded"
  const Failed := "Failed"
  const Cosi := "cosi"

  // retry.DefaultRetry makes five attempts.
  const MaxTries: nat := 5

  // How the server answers an attempt to fetch the resource and write its status.
  datatype Reply = Landed | Conflict | Broken

  // ---------- what the numbers mean ----------

  // The last Ready condition decides.
  ghost predicate IsReady(cs: seq<Condition>) {
    exists i :: 0 <= i < |cs| && cs[i] == Condition("Ready", "True") && forall j :: i < j < |cs| ==> cs[j].kind != "Ready"
  }

  ghost predicate Up(p: Pod) { p.phase == "Running" && IsReady(p.conditions) }

  ghost function UpCount(ps: seq<Pod>): nat { |set i | 0 <= i < |ps| && Up(ps[i])| }

  ghost function PendingCount(ps: seq<Pod>): nat { |set i | 0 <= i < |ps| && ps[i].phase == "Pending"| }

  predicate IsProxy(i: Instance) { exists k :: 0 <= k < |i.modules| && i.modules[k].name == AuthorizationServer }

  predicate HasNodes(i: Instance) { i.name != "" && !IsProxy(i) && i.driver != Cosi }

  predicate Checked(name: string) { name == Observability || name == AuthorizationServer }

  // The counts the controller is judged by: those of the event, or those read; a resource
  // without a controller and a failed read both count as none desired, none available.
  function ControllerCounts(i: Instance, v: View, event: Option<Counts>): Counts {
    if event.Some? then event.value
    else if i.name == "" || IsProxy(i) || v.deployment.Err? then Counts(0, 0, 0)
    else v.deployment.value
  }

  ghost predicate NodesUp(i: Instance, v: View) {
    HasNodes(i) ==> v.daemonSet.Ok? && v.pods.Ok? && UpCount(v.pods.value) == v.daemonSet.value
  }

  ghost predicate ModulesUp(i: Instance, v: View) {
    forall k :: 0 <= k < |i.modules| && i.modules[k].enabled && Checked(i.modules[k].name) ==> i.modules[k].name in v.runs
  }

  ghost predicate Healthy(i: Instance, v: View, event: Option<Counts>) {
    var c := ControllerCounts(i, v, event);
    c.desired == c.available && NodesUp(i, v) && ModulesUp(i, v)
  }

  ghost predicate NodeError(i: Instance, v: View) {
    HasNodes(i) && (v.daemonSet.Err? || v.pods.Err? || PendingCount(v.pods.value) > 0)
  }

  function Printed(c: Counts): PodStatus { PodStatus(Itoa(c.available), Itoa(c.desired), Itoa(c.unavailable)) }

  ghost function NodeReport(v: View): PodStatus {
    if v.daemonSet.Err? || v.pods.Err? then PodStatus("", "", "")
    else Printed(Counts(v.daemonSet.value, UpCount(v.pods.value), PendingCount(v.pods.value)))
  }

  // The status calculateState leaves, given the last successful configuration and the node
  // report it starts from.
  ghost function Calculated(i: Instance, v: View, event: Option<Counts>, last: string, node: PodStatus): Report {
    var up := Healthy(i, v, event);
    Report(if up then Succeeded else Failed, Printed(ControllerCounts(i, v, event)), if HasNodes(i) then NodeReport(v) else node,
           if IsProxy(i) && up then i.marshalled else last)
  }

  // The annotation is promoted to last successful configuration.
  ghost predicate Promotes(i: Instance, v: View, event: Option<Counts>) {
    Healthy(i, v, event) && ControllerCounts(i, v, event).desired == i.replicas && i.annotation != ""
  }

  ghost function Updated(i: Instance, v: View, event: Option<Counts>, last: string, node: PodStatus): Report {
    var r := Calculated(i, v, event, last, node);
    if Promotes(i, v, event) then r.(last := i.annotation) else r
  }

  // A write lands if some attempt among the first five does and conflicts came before it.
  ghost predicate Lands(api: nat -> Reply) {
    exists k: nat :: k < MaxTries && api(k) == Landed && forall j: nat :: j < k ==> api(j) == Conflict
  }

  // ---------- the engine ----------

  // A status object; the one handed in and the one of the instance may be the same.
  class Cell {
    var state: string
    var controller: PodStatus
    var node: PodStatus
    var last: string

    constructor (r: Report)
      ensures Value() == r
    {
      state, controller, node, last := r.state, r.controller, r.node, r.last;
    }

    function Value(): Report
      reads this
    {
      Report(state, controller, node, last)
    }
  }

  // The stored status of the resource.
  class Store {
    var status: Report

    constructor (r: Report)
      ensures status == r
    {
      status := r;
    }
  }

  method ReadyCondition(cs: seq<Condition>) returns (status: string)
    ensures status == "True" <==> IsReady(cs)
  {
    status := "False";
    for k := 0 to |cs|
      invariant status == "True" <==> IsReady(cs[..k])
    {
      assert cs[..k + 1] == cs[..k] + [cs[k]];
      ReadySnoc(cs[..k], cs[k]);
      if cs[k].kind == "Ready" { status := cs[k].status; }
    }
    assert cs[..|cs|] == cs;
  }

  lemma ReadySnoc(cs: seq<Condition>, c: Condition)
    ensures IsReady(cs + [c]) <==> if c.kind == "Ready" then c.status == "True" else IsReady(cs)
  {
    var all := cs + [c];
    if c.kind == "Ready" {
      assert all[|cs|] == c;
    } else if IsReady(cs) {
      var i :| 0 <= i < |cs| && cs[i] == Condition("Ready", "True") && forall j :: i < j < |cs| ==> cs[j].kind != "Ready";
      assert all[i] == cs[i];
    } else if IsReady(all) {
      var i :| 0 <= i < |all| && all[i] == Condition("Ready", "True") && forall j :: i < j < |all| ==> all[j].kind != "Ready";
      forall j | i < j < |cs| ensures cs[j].kind != "Ready" { assert all[j] == cs[j]; }
    }
  }

  lemma UpSnoc(ps: seq<Pod>, p: Pod)
    ensures UpCount(ps + [p]) == UpCount(ps) + (if Up(p) then 1 else 0)
  {
    var all := ps + [p];
    var up, up' := set i | 0 <= i < |ps| && Up(ps[i]), set i | 0 <= i < |all| && Up(all[i]);
    assert up' == if Up(p) then up + {|ps|} else up;
  }

  lemma PendingSnoc(ps: seq<Pod>, p: Pod)
    ensures PendingCount(ps + [p]) == PendingCount(ps) + (if p.phase == "Pending" then 1 else 0)
  {
    var all := ps + [p];
    var wait, wait' := set i | 0 <= i < |ps| && ps[i].phase == "Pending", set i | 0 <= i < |all| && all[i].phase == "Pending";
    assert wait' == if p.phase == "Pending" then wait + {|ps|} else wait;
  }

  method GetDeploymentStatus(i: Instance, v: View) returns (r: PodStatus)
    ensures r == Printed(ControllerCounts(i, v, None))
  {
    r := PodStatus("0", "0", "0");
    if i.name == "" || IsProxy(i) || v.deployment.Err? { return; }
    var c := v.deployment.value;
    r := PodStatus(Itoa(c.available), Itoa(c.desired), Itoa(c.unavailable));
  }

  method GetDaemonSetStatus(v: View) returns (expected: int, r: PodStatus, bad: bool)
    ensures r == NodeReport(v)
    ensures bad <==> v.daemonSet.Err? || v.pods.Err? || PendingCount(v.pods.value) > 0
    ensures expected == if v.daemonSet.Err? then 0 else v.daemonSet.value
  {
    if v.daemonSet.Err? { return 0, PodStatus("", "", ""), true; }
    if v.pods.Err? { return v.daemonSet.value, PodStatus("", "", ""), true; }
    var ps := v.pods.value;
    var running, failed := 0, 0;
    for k := 0 to |ps|
      invariant running == UpCount(ps[..k]) && failed == PendingCount(ps[..k])
    {
      assert ps[..k + 1] == ps[..k] + [ps[k]];
      UpSnoc(ps[..k], ps[k]);
      PendingSnoc(ps[..k], ps[k]);
      if ps[k].phase == "Pending" { failed := failed + 1; }
      var ready := ReadyCondition(ps[k].conditions);
      if ps[k].phase == "Running" && ready == "True" { running := running + 1; }
    }
    assert ps[..|ps|] == ps;
    return v.daemonSet.value, PodStatus(Itoa(running), Itoa(v.daemonSet.value), Itoa(failed)), failed > 0;
  }

  // The modules are asked in order until one does not run.
  method CheckModules(i: Instance, v: View) returns (running: bool)
    ensures running <==> ModulesUp(i, v)
  {
    running := true;
    for k := 0 to |i.modules|
      invariant running
      invariant forall j :: 0 <= j < k && i.modules[j].enabled && Checked(i.modules[j].name) ==> i.modules[j].name in v.runs
    {
      if Checked(i.modules[k].name) && i.modules[k].enabled && i.modules[k].name !in v.runs {
        running := false;
        break;
      }
    }
  }

  // mine is the instance's own status, given the one handed in.
  method CalculateState(i: Instance, mine: Cell, given: Cell, v: View, event: Option<Counts>) returns (running: bool, bad: bool)
    modifies mine, given
    ensures running <==> Healthy(i, v, event)
    ensures bad <==> NodeError(i, v)
    ensures mine.Value() == Calculated(i, v, event, old(mine.last), old(given.node))
    ensures given.controller == mine.controller
  {
    running, bad := true, false;
    var good := true;
    given.state := Succeeded;
    var counts: PodStatus;
    if event.Some? {
      counts := Printed(event.value);
    } else {
      counts := GetDeploymentStatus(i, v);
    }
    if HasNodes(i) {
      var expected, node, err := GetDaemonSetStatus(v);
      given.node := node;
      bad := err;
      good := Itoa(expected) == node.available;
      NodeStringsCompare(i, v, expected);
    }
    given.controller := counts;
    ItoaInjective(ControllerCounts(i, v, event).desired, ControllerCounts(i, v, event).available);
    if counts.desired == counts.available && good {
      running := CheckModules(i, v);
      if !running { given.state := Failed; }
    } else {
      running := false;
      given.state := Failed;
    }
    // SetStatus
    mine.state, mine.controller, mine.node := given.state, given.controller, given.node;
    if IsProxy(i) && mine.state == Succeeded { mine.last := i.marshalled; }
  }

  // Comparing the printed counts compares the counts; an unread DaemonSet or pod list never
  // compares equal.
  lemma NodeStringsCompare(i: Instance, v: View, expected: int)
    requires HasNodes(i) && expected == if v.daemonSet.Err? then 0 else v.daemonSet.value
    ensures Itoa(expected) == NodeReport(v).available <==> NodesUp(i, v)
  {
    if v.daemonSet.Ok? && v.pods.Ok? {
      ItoaInjective(expected, UpCount(v.pods.value));
    }
  }

  // UpdateStatus returns nil exactly when the write lands, everything is healthy and no node
  // pod is pending; what it stores is the computed status, and nothing on any other outcome.
  method UpdateStatus(i: Instance, mine: Cell, given: Cell, store: Store, v: View, event: Option<Counts>, api: nat -> Reply)
      returns (ok: bool)
    modifies mine, given, store
    ensures ok <==> Lands(api) && Healthy(i, v, event) && !NodeError(i, v)
    ensures mine.Value() == Updated(i, v, event, old(mine.last), old(given.node))
    ensures store.status == if Lands(api) then mine.Value() else old(store.status)
  {
    var running, bad := CalculateState(i, mine, given, v, event);
    ItoaInjective(ControllerCounts(i, v, event).desired, i.replicas);
    if given.controller.desired == Itoa(i.replicas) && running && i.annotation != "" {
      mine.last := i.annotation;
    }
    var landed := false;
    var k: nat := 0;
    while k < MaxTries
      invariant k <= MaxTries && !landed && store.status == old(store.status)
      invariant forall j: nat :: j < k ==> api(j) == Conflict
      invariant mine.Value() == Updated(i, v, event, old(mine.last), old(given.node))
    {
      if api(k) == Landed {
        store.status := mine.Value();
        landed := true;
        break;
      } else if api(k) == Broken {
        break;
      }
      k := k + 1;
    }
    ok := landed && running && !bad;
  }

  // ---------- consequences ----------

  // The stored state and counts say exactly what was found.
  lemma ReportReadsBack(i: Instance, v: View, event: Option<Counts>, last: string, node: PodStatus)
    ensures var r := Updated(i, v, event, last, node);
            && (r.state == Succeeded <==> Healthy(i, v, event))
            && (r.state == Succeeded ==> r.controller.desired == r.controller.available)
            && (HasNodes(i) && r.state == Succeeded ==> r.node.desired == r.node.available != "")
            && (HasNodes(i) && v.daemonSet.Ok? && v.pods.Ok? ==> (r.node.failed == "0" <==> !NodeError(i, v)))
  {
    if HasNodes(i) && v.daemonSet.Ok? && v.pods.Ok? {
      ItoaInjective(PendingCount(v.pods.value), 0);
      assert Itoa(0) == "0";
      assert Itoa(UpCount(v.pods.value)) != "";
    }
  }

  // The last successful configuration of a driver changes exactly when everything runs, the
  // controller has the replicas asked for and a different annotation is recorded.
  lemma LastChangesIff(i: Instance, v: View, event: Option<Counts>, last: string, node: PodStatus)
    requires !IsProxy(i)
    ensures Updated(i, v, event, last, node).last != last <==> Promotes(i, v, event) && i.annotation != last
    ensures Updated(i, v, event, last, node).last != last ==>
              Updated(i, v, event, last, node).state == Succeeded && Updated(i, v, event, last, node).last == i.annotation
  {
  }

  // A second refresh over an unchanged cluster changes nothing, so status writes do not feed
  // themselves.
  lemma RefreshIsIdempotent(i: Instance, v: View, event: Option<Counts>, last: string, node: PodStatus)
    ensures var r := Updated(i, v, event, last, node); Updated(i, v, event, r.last, r.node) == r
  {
  }

  // A Deployment that cannot be read counts as healthy: the state is Succeeded although
  // nothing is known of the controller.
  lemma UnreadDeploymentIsHealthy(i: Instance, v: View)
    requires v.deployment.Err?
    ensures Healthy(i, v, None) <==> NodesUp(i, v) && ModulesUp(i, v)
    ensures Promotes(i, v, None) ==> i.replicas == 0
  {
  }

  // What health takes: the controller's replicas, the nodes' pods and the checked modules; no
  // nodes for the object-storage driver, and neither for the authorization proxy server.
  lemma HealthOf(i: Instance, v: View, event: Option<Counts>)
    requires i.name != ""
    ensures var proxy := exists k :: 0 <= k < |i.modules| && i.modules[k].name == "authorization-proxy-server";
            Healthy(i, v, event) <==>
              && (event.Some? ==> event.value.desired == event.value.available)
              && (event.None? && !proxy && v.deployment.Ok? ==> v.deployment.value.desired == v.deployment.value.available)
              && (!proxy && i.driver != "cosi" ==> v.daemonSet.Ok? && v.pods.Ok? && UpCount(v.pods.value) == v.daemonSet.value)
              && (forall k :: 0 <= k < |i.modules| && i.modules[k].enabled && i.modules[k].name in {"observability", "authorization-proxy-server"} ==>
                    i.modules[k].name in v.runs)
  {
  }

  // A write that meets up to four conflicts still lands; five conflicts, or any other failure
  // before it, and it does not.
  lemma FiveAttempts(api: nat -> Reply, k: nat)
    requires forall j: nat :: j < k ==> api(j) == Conflict
    ensures k < 5 && api(k) == Landed ==> Lands(api)
    ensures k >= 5 || api(k) == Broken ==> !Lands(api)
  {
  }
}
