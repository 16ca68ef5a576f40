// Reconcile as a function of the world: what a sync, a removal and a whole reconcile do,
// whatever the user and the API server do between the calls.
module Lifecycle {
  import opened Resource
  import opened Cluster
  import opened Api
  import opened Versions

  datatype Slot = Slot(style: Style, key: Key)

  datatype Rbac = Rbac(account: Key, clusterRole: Key, clusterRoleBinding: Key,
                       role: Option<Key>, roleBinding: Option<Key>)

  // The objects of one driver. The object-storage driver has no node part and no CSIDriver.
  datatype Driver =
    | Csi(node: Rbac, controller: Rbac, configMap: Key, csiDriver: Key, daemonSet: Key, deployment: Key)
    | Cosi(controller: Rbac, configMap: Key, deployment: Key)

  // What the operator reads from its configuration directory.
  //   replication  - the objects of the replication controller
  //   crds         - the replication CRDs, applied before the cleanup
  //   components   - the objects of each observability component
  //   selfSigned   - the Issuer and Certificate of a component without a certificate of its own
  //   custom       - the Secret, Issuer and Certificate of one with its own
  //   topology     - the config version still has a topology component
  //   defaults     - default-components.yaml, if it can be read
  //   versions     - csm-version-mapping.yaml; paths - the upgrade-path.yaml files
  datatype Templates = Templates(
    driver: Driver,
    replication: seq<Key>,
    crds: seq<Key>,
    components: map<string, seq<Slot>>,
    selfSigned: map<string, seq<Key>>,
    custom: map<string, seq<Key>>,
    topology: bool,
    defaults: Option<seq<Component>>,
    versions: map<string, map<string, string>>,
    paths: map<string, Paths>,
    render: (Spec, Key) -> Body)

  const Topology := "topology"
  const CertManager := "cert-manager"
  const Otel := "otel-collector"
  const PowerStoreMetrics := "metrics-powerstore"

  predicate Supported(c: string) {
    c in {Otel, CertManager, Topology, "metrics-powerscale", "metrics-powerflex", "metrics-powermax", PowerStoreMetrics}
  }

  predicate Certified(c: string) { c == Otel || c == Topology || c == PowerStoreMetrics }

  // The configuration directory of a driver: isilon is kept under powerscale.
  function Directory(driver: string): string { if driver == "isilon" then "powerscale" else driver }

  function GetVersion(t: Templates, s: Spec): Result<string> {
    if s.version != "" then
      var d := Directory(s.driver);
      var platform := if d == "" && HasModule(s, AuthorizationServer) then AuthorizationServer else d;
      if platform in t.versions && s.version in t.versions[platform] then Ok(t.versions[platform][s.version]) else Err
    else if s.configVersion != "" then Ok(s.configVersion)
    else Ok(AuthVersion(s))
  }

  function AuthVersion(s: Spec): string {
    var m := FirstModule(s.modules, AuthorizationServer);
    if m.Some? then m.value.configVersion else ""
  }

  // ---------- operation lists ----------

  function PutAll(t: Templates, s: Spec, slots: seq<Slot>): (r: seq<Op>)
    ensures |r| == |slots|
    ensures forall i :: 0 <= i < |r| ==> r[i] == Put(slots[i].style, slots[i].key, t.render(s, slots[i].key))
  {
    seq(|slots|, i requires 0 <= i < |slots| => Put(slots[i].style, slots[i].key, t.render(s, slots[i].key)))
  }

  function DropAll(ks: seq<Key>): (r: seq<Op>)
    ensures |r| == |ks|
    ensures forall i :: 0 <= i < |r| ==> r[i] == Drop(ks[i])
  {
    seq(|ks|, i requires 0 <= i < |ks| => Drop(ks[i]))
  }

  function Slots(style: Style, ks: seq<Key>): (r: seq<Slot>)
    ensures |r| == |ks|
    ensures forall i :: 0 <= i < |r| ==> r[i] == Slot(style, ks[i])
  {
    seq(|ks|, i requires 0 <= i < |ks| => Slot(style, ks[i]))
  }

  function Keys(slots: seq<Slot>): (r: seq<Key>)
    ensures |r| == |slots|
    ensures forall i :: 0 <= i < |r| ==> r[i] == slots[i].key
  {
    seq(|slots|, i requires 0 <= i < |slots| => slots[i].key)
  }

  function Opt(k: Option<Key>): seq<Key> { if k.Some? then [k.value] else [] }

  // Deletion of a component's objects; a metrics Deployment is swept like a driver's workload.
  function ClearAll(slots: seq<Slot>): (r: seq<Op>)
    ensures |r| == |slots|
    ensures forall i :: 0 <= i < |r| ==> r[i] == if slots[i].style.DeployApply? then Sweep(slots[i].key) else Drop(slots[i].key)
  {
    seq(|slots|, i requires 0 <= i < |slots| => if slots[i].style.DeployApply? then Sweep(slots[i].key) else Drop(slots[i].key))
  }

  function Rewrite(t: Templates, deleting: bool, s: Spec, slots: seq<Slot>): seq<Op> {
    if deleting then ClearAll(slots) else PutAll(t, s, slots)
  }

  // A module function reads the images ConfigMap first when the spec names a version.
  function Lookup(s: Spec): seq<Op> { if s.version != "" then [Gate] else [] }

  // The driver's writes, in the order SyncCSM issues them.
  function DriverSlots(d: Driver): seq<Slot> {
    match d
    case Csi(n, c, cm, csi, ds, dp) =>
      Slots(CreateOnly, [n.account, c.account])
      + Slots(Verified, [n.clusterRole, c.clusterRole])
      + Slots(Plain, [n.clusterRoleBinding, c.clusterRoleBinding])
      + Slots(Verified, Opt(n.role) + Opt(c.role))
      + Slots(Plain, Opt(n.roleBinding) + Opt(c.roleBinding))
      + Slots(Plain, [csi, cm])
      + [Slot(DeployApply, dp), Slot(DaemonApply, ds)]
    case Cosi(c, cm, dp) =>
      [Slot(CreateOnly, c.account), Slot(Verified, c.clusterRole), Slot(Plain, c.clusterRoleBinding),
       Slot(Plain, cm), Slot(DeployApply, dp)]
  }

  function RbacKeys(r: Rbac): seq<Key> {
    [r.account, r.clusterRole, r.clusterRoleBinding] + Opt(r.role) + Opt(r.roleBinding)
  }

  // The driver's removal, in the order removeDriverFromCluster issues it.
  function DriverRemovals(d: Driver): seq<Op> {
    match d
    case Csi(n, c, cm, csi, ds, dp) =>
      DropAll(RbacKeys(n) + RbacKeys(c) + [cm, csi]) + [Sweep(ds), Sweep(dp)]
    case Cosi(c, cm, dp) =>
      DropAll(RbacKeys(c) + [cm]) + [Sweep(dp)]
  }

  function ComponentSlots(t: Templates, c: string): seq<Slot> {
    if c in t.components && Supported(c) && (c == Topology ==> t.topology) then t.components[c] else []
  }

  function CertificateKeys(t: Templates, mode: Mode, c: string): seq<Key> {
    if !Certified(c) then []
    else
      match mode
      case SelfSigned => if c in t.selfSigned then t.selfSigned[c] else []
      case Custom => if c in t.custom then t.custom[c] else []
      case Half => []
  }

  predicate Metrics(c: string) { c in {"metrics-powerscale", "metrics-powerflex", "metrics-powermax", PowerStoreMetrics} }

  function ComponentOps(t: Templates, deleting: bool, s: Spec, cs: seq<string>): seq<Op> {
    if cs == [] then []
    else if !Supported(cs[0]) then [Abort] + ComponentOps(t, deleting, s, cs[1..])
    else
      (if Metrics(cs[0]) then Lookup(s) else []) + Rewrite(t, deleting, s, ComponentSlots(t, cs[0]))
      + ComponentOps(t, deleting, s, cs[1..])
  }

  // The certificates of one component, in the mode the whole list gives it.
  function CertificateOp(t: Templates, deleting: bool, s: Spec, all: seq<Component>, c: Component): seq<Op> {
    if !c.enabled || !Certified(c.name) then []
    else if ModeOf(all, c.name).Half? then [Abort]
    else Rewrite(t, deleting, s, Slots(Lenient, CertificateKeys(t, ModeOf(all, c.name), c.name)))
  }

  function CertificateOps(t: Templates, deleting: bool, s: Spec, all: seq<Component>, cs: seq<Component>): seq<Op> {
    if cs == [] then [] else CertificateOp(t, deleting, s, all, cs[0]) + CertificateOps(t, deleting, s, all, cs[1..])
  }

  // The first spec enables the component and the second, if there is one, does not.
  predicate Lapsed(s: Spec, now: Option<Spec>, c: string) {
    IsComponentEnabled(s, Observability, c) && (now.Some? ==> !IsComponentEnabled(now.value, Observability, c))
  }

  function Retired(s: Spec, now: Option<Spec>, cs: seq<Component>): (r: seq<string>)
    ensures forall c :: c in r <==> (exists i :: 0 <= i < |cs| && cs[i].name == c) && Lapsed(s, now, c)
  {
    if cs == [] then []
    else (if Lapsed(s, now, cs[0].name) then [cs[0].name] else []) + Retired(s, now, cs[1..])
  }

  // reconcileObservability; an empty component list stands for every enabled component.
  function ObservabilityOps(t: Templates, deleting: bool, s: Spec, components: seq<string>): seq<Op> {
    if GetVersion(t, s).Err? then [Abort]
    else
      var m := EnabledModule(s.modules, Observability);
      var cs := if components == [] && m.Some? then Retired(s, None, m.value.components) else components;
      var first := FirstModule(s.modules, Observability);
      ComponentOps(t, deleting, s, cs)
      + (if !deleting && IsComponentEnabled(s, Observability, CertManager) then [Gate] else [])
      + (if first.None? then [Abort] else CertificateOps(t, deleting, s, first.value.components, first.value.components))
  }

  // ReplicationManagerController: the manifest is read for the module's version, or the spec's.
  function ReplicationOps(t: Templates, deleting: bool, s: Spec): seq<Op> {
    var m := FirstModule(s.modules, Replication);
    Lookup(s) +
    (if m.None? || (m.value.configVersion == "" && GetVersion(t, s).Err?) then [Abort]
     else Rewrite(t, deleting, s, Slots(Lenient, t.replication)))
  }

  // oldStandAloneModuleCleanup, up to the write of the annotation.
  function CleanupOps(t: Templates, was: Spec, now: Spec): seq<Op> {
    (if ReplicaEnabled(was) && !ReplicaEnabled(now) then ReplicationOps(t, true, was) else [])
    + (var m := EnabledModule(was.modules, Observability);
       var components := if m.Some? && IsModuleEnabled(now, Observability) then Retired(was, Some(now), m.value.components) else [];
       if (m.Some? && !IsModuleEnabled(now, Observability)) || components != []
       then ObservabilityOps(t, true, was, components) else [])
  }

  // SyncCSM before the cleanup.
  function EarlyOps(t: Templates, s: Spec): seq<Op> {
    (if s.version != "" then [Gate] else [])
    + (if IsModuleEnabled(s, Replication) then PutAll(t, s, Slots(Lenient, t.crds)) else [])
    + [Gate]
  }

  // SyncCSM after the cleanup: the modules are injected into the driver's manifests, then the
  // driver is written. The object-storage driver has no modules after that.
  function DeployOps(t: Templates, s: Spec): seq<Op> {
    [Gate] + PutAll(t, s, DriverSlots(t.driver)) + (if t.driver.Cosi? then [] else ModuleOps(t, s))
  }

  function ModuleOps(t: Templates, s: Spec): seq<Op> {
    (if IsModuleEnabled(s, Replication) then ReplicationOps(t, false, s) else [])
    + (if IsModuleEnabled(s, Observability) then ObservabilityOps(t, false, s, []) else [])
  }

  // removeDriver.
  function RemoveOps(t: Templates, s: Spec): seq<Op> {
    if s.driver == "" then [Gate]
    else
      [Gate] + DriverRemovals(t.driver) + ModuleRemovals(t, s)
  }

  function ModuleRemovals(t: Templates, s: Spec): seq<Op> {
    (if IsModuleEnabled(s, Replication) then ReplicationOps(t, true, s) else [])
    + (if IsModuleEnabled(s, Observability) then ObservabilityOps(t, true, s, []) else [])
  }

  // ---------- the reconciler ----------

  // Update of the custom resource: refused when the stored one moved on. A resource marked
  // for deletion disappears with its last finalizer.
  function Replaced(cr: Stored, local: Stored): Stored {
    local.(deleting := cr.deleting, revision := cr.revision + 1, gone := cr.deleting && !local.finalizer)
  }

  function Update(sc: Script, w: World, local: Stored): Wrote {
    var w1 := Advance(sc, w);
    var fault := At(sc, w.clock).fault;
    if fault.Refused? then Wrote(w1, Some(fault.why))
    else if w1.cr.gone || w1.cr.revision != local.revision then Wrote(w1, Some(Conflict))
    else
      var hop := if local.config != w1.cr.config then [Hop(local.spec, w1.cr.config, local.config)] else [];
      Wrote(w1.(cr := Replaced(w1.cr, local), history := w1.history + hop),
            if fault.Lost? then Some(Unavailable) else None)
  }

  // LoadDefaultComponents adds the default observability components the first entry lacks.
  function AddComponent(ms: seq<Module>, c: Component): (r: seq<Module>)
    ensures |r| == |ms|
    ensures forall i :: 0 <= i < |ms| ==> r[i].name == ms[i].name && r[i].enabled == ms[i].enabled
  {
    seq(|ms|, i requires 0 <= i < |ms| =>
      if ms[i].name == Observability then ms[i].(components := ms[i].components + [c]) else ms[i])
  }

  function AddDefaults(ms: seq<Module>, cs: seq<Component>): (r: seq<Module>)
    ensures |r| == |ms|
    ensures forall i :: 0 <= i < |ms| ==> r[i].name == ms[i].name && r[i].enabled == ms[i].enabled
    decreases |cs|
  {
    if cs == [] then ms
    else
      var first := FirstModule(ms, Observability);
      var has := first.Some? && exists i :: 0 <= i < |first.value.components| && first.value.components[i].name == cs[0].name;
      AddDefaults(if has then ms else AddComponent(ms, cs[0]), cs[1..])
  }

  function SetAuthVersion(ms: seq<Module>, v: string): (r: seq<Module>)
    ensures |r| == |ms|
    ensures forall i :: 0 <= i < |ms| ==> r[i].name == ms[i].name && r[i].enabled == ms[i].enabled
  {
    if ms == [] then []
    else if ms[0].name == AuthorizationServer then [ms[0].(configVersion := v)] + ms[1..]
    else [ms[0]] + SetAuthVersion(ms[1..], v)
  }

  // The working copy: forced removal unless declined, default components, the version of the
  // authorization server.
  function Prepare(t: Templates, s: Spec): Result<Spec> {
    if HasModule(s, Observability) && t.defaults.None? then Err
    else
      var forced := s.(force := if s.force.None? then Some(true) else s.force);
      var full := if IsModuleEnabled(s, Observability) && t.defaults.Some?
                  then forced.(modules := AddDefaults(s.modules, t.defaults.value)) else forced;
      if !HasModule(full, AuthorizationServer) then Ok(full)
      else
        match GetVersion(t, full)
        case Err => Err
        case Ok(v) => Ok(full.(modules := SetAuthVersion(full.modules, v)))
  }

  predicate KnownDriver(d: string) {
    d in {"isilon", "powerflex", "powerstore", "unity", "powermax", "cosi"}
  }

  // checkUpgrade. Skip is the answer "not valid, no error", on which PreChecks passes.
  datatype Verdict = Proceed | Skip | Reject

  predicate MajorSwitch(was: string, now: string) {
    ("v1." <= was && "v2." <= now) || ("v2." <= was && "v1." <= now)
  }

  function PathsOf(t: Templates, component: string): Paths {
    if component in t.paths then t.paths[component] else map[]
  }

  function CheckUpgrade(t: Templates, local: Stored): Verdict {
    if local.config.None? then Proceed
    else if HasModule(local.spec, AuthorizationServer) then
      var now := if local.spec.version != "" then GetVersion(t, local.spec) else Ok(AuthVersion(local.spec));
      if now.Err? then Reject
      else if MajorSwitch(local.config.value, now.value) then Skip
      else if ValidHop(PathsOf(t, "authorization"), local.config.value, now.value) then Proceed
      else Reject
    else
      var now := GetVersion(t, local.spec);
      if now.Ok? && ValidHop(PathsOf(t, Directory(local.spec.driver)), local.config.value, now.value)
      then Proceed else Reject
  }

  // PreChecks: the checks on drivers, registry, owner and modules read only, so they are gates.
  function PreChecks(t: Templates, sc: Script, local: Stored, w: World): Done {
    if KnownDriver(local.spec.driver) || HasModule(local.spec, AuthorizationServer) then
      var d := if KnownDriver(local.spec.driver) then Run(sc, Gate, w) else Done(w, true);
      if !d.ok then d
      else
        match CheckUpgrade(t, local)
        case Reject => Done(d.world, false)
        case Skip => d
        case Proceed => Run(sc, Gate, d.world)
    else Done(w, false)
  }

  function Sync(t: Templates, sc: Script, local: Stored, w: World): Done {
    if IsModuleEnabled(local.spec, AuthorizationServer) then Run(sc, Gate, w)
    else
      var early := RunAll(sc, EarlyOps(t, local.spec), w);
      if !early.ok || local.spec.driver == "" then early
      else
        var clean := RunAll(sc, if local.previous.Some? then CleanupOps(t, local.previous.value, local.spec) else [], early.world);
        if !clean.ok then clean
        else
          var rec := Update(sc, clean.world, local.(previous := Some(local.spec)));
          if rec.error.Some? then Done(rec.world, false)
          else RunAll(sc, DeployOps(t, local.spec), rec.world)
  }

  // applyConfigVersionAnnotations: Some(v) when the annotation has to change to v.
  function NewConfig(t: Templates, local: Stored): Option<string> {
    var v := GetVersion(t, local.spec);
    if v.Ok? && v.value != (if local.config.Some? then local.config.value else "") then Some(v.value) else None
  }

  function Install(t: Templates, sc: Script, local: Stored, w: World): World {
    var fin := if local.finalizer then Wrote(w, None) else Update(sc, w, local.(finalizer := true));
    if fin.error.Some? then fin.world
    else
      var l1 := if local.finalizer then local else fin.world.cr;
      var v := NewConfig(t, l1);
      var conf := if v.None? then Wrote(fin.world, None) else Update(sc, fin.world, l1.(config := v));
      if conf.error.Some? then conf.world
      else
        var l2 := if v.None? then l1 else conf.world.cr;
        Sync(t, sc, l2, conf.world).world
  }

  predicate Forced(s: Spec) { s.force != Some(false) }

  function Teardown(t: Templates, sc: Script, local: Stored, w: World): World {
    var gone := if Forced(local.spec) then RunAll(sc, RemoveOps(t, local.spec), w) else Done(w, true);
    if !gone.ok || !local.finalizer then gone.world
    else Update(sc, gone.world, local.(finalizer := false)).world
  }

  function Reconcile(t: Templates, sc: Script, w: World): World {
    var w0 := Advance(sc, w);
    if !At(sc, w.clock).fault.Clear? || w0.cr.gone then w0
    else
      match Prepare(t, w0.cr.spec)
      case Err => w0
      case Ok(s) =>
        var local := w0.cr.(spec := s);
        var checked := PreChecks(t, sc, local, w0);
        if !checked.ok then Advance(sc, checked.world)
        else if local.deleting then Teardown(t, sc, local, checked.world)
        else Install(t, sc, local, checked.world)
  }

  datatype Event = User(action: Action) | Reconciles

  function Occurs(t: Templates, sc: Script, e: Event, w: World): World {
    match e
    case User(a) => w.(cr := Acts(w.cr, a))
    case Reconciles => Reconcile(t, sc, w)
  }

  function History(t: Templates, sc: Script, es: seq<Event>, w: World): World {
    if es == [] then w else History(t, sc, es[1..], Occurs(t, sc, es[0], w))
  }
}
