// Exactly when the reconciler leaves an object behind that its resource no longer asks for.
module Leftovers {
  import opened Resource
  import opened Cluster
  import opened Api
  import opened Versions
  import opened Lifecycle
  import opened Operations
  import opened Safety

  // ---------- workloads that cannot be read ----------

  // A completed removal leaves a module object exactly when it was there and the resource
  // being removed no longer enabled it: disabling a module and deleting the resource before
  // the next sync strands the module.
  lemma StrandedIff(x: Watch, sc: Script, s: Spec, w: World)
    requires WellFormed(x) && Regular(x, s) && s.driver != "" && RunAll(sc, RemoveOps(x.t, s), w).ok
    requires Managed(x) && (Sighted(sc, w.clock) || !Swept(x.t, x.key))
    ensures x.key in RunAll(sc, RemoveOps(x.t, s), w).world.objects <==> x.key in w.objects && !Owned(x, s)
  {
    RemovalClears(x, sc, s, w);
  }

  // Every read of k before its deletion failed with something other than NotFound.
  ghost predicate AlwaysBlind(sc: Script, ops: seq<Op>, w: World, k: Key) {
    forall i :: 0 <= i < |ops| && ops[i] == Sweep(k) ==> At(sc, RunAll(sc, ops[..i], w).world.clock).blind
  }

  // A completed removal leaves a workload, the driver's or a metrics component's, exactly when
  // it was there and every read of it was blind.
  lemma WorkloadSurvivesIff(x: Watch, sc: Script, s: Spec, w: World)
    requires Regular(x, s) && RunAll(sc, RemoveOps(x.t, s), w).ok && Drop(x.key) !in RemoveOps(x.t, s)
    ensures x.key in RunAll(sc, RemoveOps(x.t, s), w).world.objects <==>
              x.key in w.objects && AlwaysBlind(sc, RemoveOps(x.t, s), w, x.key)
  {
    RemovalTouches(x, s);
    SweptIff(sc, RemoveOps(x.t, s), w, x.key);
  }

  // The DaemonSet is only ever swept.
  lemma DaemonSetSurvivesIff(x: Watch, sc: Script, s: Spec, w: World)
    requires WellFormed(x) && Regular(x, s) && s.driver != "" && RunAll(sc, RemoveOps(x.t, s), w).ok
    requires x.t.driver.Csi? && x.key == x.t.driver.daemonSet
    requires var d := x.t.driver; x.key !in RbacKeys(d.node) + RbacKeys(d.controller) + [d.configMap, d.csiDriver]
    ensures Sweep(x.key) in RemoveOps(x.t, s)
    ensures x.key in RunAll(sc, RemoveOps(x.t, s), w).world.objects <==>
              x.key in w.objects && AlwaysBlind(sc, RemoveOps(x.t, s), w, x.key)
  {
    assert Sweep(x.key) in DriverRemovals(x.t.driver);
    DaemonSetUndropped(x, s);
    WorkloadSurvivesIff(x, sc, s, w);
  }

  lemma DaemonSetUndropped(x: Watch, s: Spec)
    requires WellFormed(x) && Regular(x, s) && x.t.driver.Csi? && x.key == x.t.driver.daemonSet
    requires var d := x.t.driver; x.key !in RbacKeys(d.node) + RbacKeys(d.controller) + [d.configMap, d.csiDriver]
    ensures Drop(x.key) !in RemoveOps(x.t, s)
  {
    var d := x.t.driver;
    if Drop(x.key) in RemoveOps(x.t, s) {
      RemoveParts(x.t, s, Drop(x.key));
      DropsHold(RbacKeys(d.node) + RbacKeys(d.controller) + [d.configMap, d.csiDriver], x.key);
      NotOfModules(x, s, Drop(x.key));
    }
  }

  lemma NotOfModules(x: Watch, s: Spec, op: Op)
    requires WellFormed(x) && Regular(x, s) && OfDriver(x.t, x.key) && !Idle(op)
    requires || (IsModuleEnabled(s, Replication) && op in ReplicationOps(x.t, true, s))
             || (IsModuleEnabled(s, Observability) && op in ObservabilityOps(x.t, true, s, []))
    ensures op.key != x.key
  {
    if IsModuleEnabled(s, Replication) && op in ReplicationOps(x.t, true, s) {
      ReplicationOnly(x.t, true, s, op);
    } else {
      ObservabilityKinds(x.t, true, s, [], op);
      if op.key == x.key { ObservabilityOnly(x, true, s, [], op); }
    }
  }

  // k is the Deployment of component c and of nothing else.
  ghost predicate DeploymentOf(t: Templates, c: string, k: Key) {
    && c in t.components && Slot(DeployApply, k) in ComponentSlots(t, c)
    && (forall e, i :: 0 <= i < |ComponentSlots(t, e)| && ComponentSlots(t, e)[i].key == k ==> e == c && ComponentSlots(t, e)[i].style.DeployApply?)
    && (forall e, mode :: k !in CertificateKeys(t, mode, e))
    && k !in t.replication && k !in t.crds && !OfDriver(t, k)
  }

  lemma DeploymentOps(t: Templates, s: Spec, components: seq<string>, c: string, k: Key, op: Op)
    requires DeploymentOf(t, c, k) && op in ObservabilityOps(t, true, s, components) && !Idle(op) && op.key == k
    ensures op == Sweep(k)
    ensures var m := EnabledModule(s.modules, Observability);
            c in (if components == [] && m.Some? then Retired(s, None, m.value.components) else components)
  {
    var m := EnabledModule(s.modules, Observability);
    var cs := if components == [] && m.Some? then Retired(s, None, m.value.components) else components;
    if op in ComponentOps(t, true, s, cs) {
      DeploymentSwept(t, s, cs, c, k, op);
    } else {
      var first := FirstModule(s.modules, Observability).value.components;
      CertificateOpsHold(t, true, s, first, first, op);
      var e :| e in first && op in CertificateOp(t, true, s, first, e);
      IssueOp(t, true, s, first, e, op);
    }
  }

  lemma DeploymentSwept(t: Templates, s: Spec, cs: seq<string>, c: string, k: Key, op: Op)
    requires DeploymentOf(t, c, k) && op in ComponentOps(t, true, s, cs) && !Idle(op) && op.key == k
    ensures op == Sweep(k) && c in cs
  {
    ComponentOpsHold(t, true, s, cs, op);
    var e :| e in cs && op in OneComponent(t, true, s, e);
    var ops := Rewrite(t, true, s, ComponentSlots(t, e));
    var i :| 0 <= i < |ops| && ops[i] == op;
    assert ComponentSlots(t, e)[i].key == k;
  }

  // The cleanup only sweeps such a Deployment, and does so exactly when its component lapses.
  lemma CleanupSweeps(t: Templates, was: Spec, now: Spec, c: string, k: Key)
    requires DeploymentOf(t, c, k) && Abort !in CleanupOps(t, was, now)
    ensures Drop(k) !in CleanupOps(t, was, now)
    ensures Sweep(k) in CleanupOps(t, was, now) <==> Lapsed(was, Some(now), c)
  {
    if Drop(k) in CleanupOps(t, was, now) { CleanupDeployment(t, was, now, c, k, Drop(k)); }
    if Sweep(k) in CleanupOps(t, was, now) { CleanupDeployment(t, was, now, c, k, Sweep(k)); }
    if Lapsed(was, Some(now), c) { DeploymentLapses(t, was, now, c, k); }
  }

  lemma CleanupDeployment(t: Templates, was: Spec, now: Spec, c: string, k: Key, op: Op)
    requires DeploymentOf(t, c, k) && op in CleanupOps(t, was, now) && !Idle(op) && op.key == k
    ensures op == Sweep(k) && Lapsed(was, Some(now), c)
  {
    if ReplicaEnabled(was) && op in ReplicationOps(t, true, was) {
      ReplicationOnly(t, true, was, op);
    } else {
      DeploymentOps(t, was, Named(was, now), c, k, op);
    }
  }

  lemma DeploymentLapses(t: Templates, was: Spec, now: Spec, c: string, k: Key)
    requires DeploymentOf(t, c, k) && Abort !in CleanupOps(t, was, now) && Lapsed(was, Some(now), c)
    ensures Sweep(k) in CleanupOps(t, was, now)
  {
    NamedIn(EnabledModule(was.modules, Observability).value.components, c);
    var i :| 0 <= i < |ComponentSlots(t, c)| && ComponentSlots(t, c)[i] == Slot(DeployApply, k);
    assert Keys(ComponentSlots(t, c))[i] == k;
    CleanupParts(t, was, now, Abort);
    var op := ComponentReaches(t, true, was, Named(was, now), c, k);
    CleanupParts(t, was, now, op);
    CleanupDeployment(t, was, now, c, k, op);
  }

  // A completed cleanup leaves the Deployment of a metrics component that has lapsed exactly
  // when it was there and every read of it was blind; of one that has not, exactly when it
  // was there.
  lemma MetricsSurviveIff(t: Templates, sc: Script, was: Spec, now: Spec, w: World, c: string, k: Key)
    requires DeploymentOf(t, c, k) && RunAll(sc, CleanupOps(t, was, now), w).ok
    ensures k in RunAll(sc, CleanupOps(t, was, now), w).world.objects <==>
              k in w.objects && (Lapsed(was, Some(now), c) ==> AlwaysBlind(sc, CleanupOps(t, was, now), w, k))
  {
    RunSucceeds(sc, CleanupOps(t, was, now), w, k);
    CleanupSweeps(t, was, now, c, k);
    CleanupNeverPuts(t, was, now, k);
    SweptIff(sc, CleanupOps(t, was, now), w, k);
  }

  // ---------- what one successful sync leaves ----------

  // An object the cleanup does not sweep is there afterwards exactly if the deployment writes
  // it, or it was there and the cleanup does not drop it.
  lemma SyncLeaves(t: Templates, sc: Script, local: Stored, w: World, k: Key)
    requires Sync(t, sc, local, w).ok && !IsModuleEnabled(local.spec, AuthorizationServer) && local.spec.driver != ""
    requires local.previous.Some? && k !in t.crds && Sweep(k) !in CleanupOps(t, local.previous.value, local.spec)
    ensures k in Sync(t, sc, local, w).world.objects <==>
              PutsOn(DeployOps(t, local.spec), k) || (k in w.objects && Drop(k) !in CleanupOps(t, local.previous.value, local.spec))
    ensures Abort !in CleanupOps(t, local.previous.value, local.spec) && Abort !in DeployOps(t, local.spec)
  {
    var early, ops, deploy := EarlyOps(t, local.spec), CleanupOps(t, local.previous.value, local.spec), DeployOps(t, local.spec);
    var w1 := RunAll(sc, early, w).world;
    EarlyLeaves(t, sc, local.spec, w, k);
    CleanupNeverPuts(t, local.previous.value, local.spec, k);
    RunSucceeds(sc, ops, w1, k);
    RunKeys(sc, ops, w1, k);
    assert RemovesOn(ops, k) ==> Drop(k) in ops;
    var w2 := RunAll(sc, ops, w1).world;
    var w3 := Update(sc, w2, local.(previous := Some(local.spec))).world;
    DeployNeverRemoves(t, local.spec, k);
    RunSucceeds(sc, deploy, w3, k);
    RunKeys(sc, deploy, w3, k);
  }

  lemma EarlyLeaves(t: Templates, sc: Script, s: Spec, w: World, k: Key)
    requires k !in t.crds
    ensures k in RunAll(sc, EarlyOps(t, s), w).world.objects <==> k in w.objects
  {
    var ops := EarlyOps(t, s);
    forall i | 0 <= i < |ops| && !Idle(ops[i]) ensures ops[i].Put? && ops[i].key != k { EarlyOnly(t, s, ops[i]); }
    RunKeys(sc, ops, w, k);
  }

  // The cleanup removes observability objects at all: the module goes, or a component lapses.
  ghost predicate Renews(was: Spec, now: Spec) {
    var m := EnabledModule(was.modules, Observability);
    m.Some? && (!IsModuleEnabled(now, Observability) || exists c :: Lapsed(was, Some(now), c))
  }

  lemma RenewsIff(was: Spec, now: Spec)
    ensures var m := EnabledModule(was.modules, Observability);
            Renews(was, now) <==>
              (m.Some? && !IsModuleEnabled(now, Observability)) ||
              (m.Some? && IsModuleEnabled(now, Observability) && Retired(was, Some(now), m.value.components) != [])
  {
    var m := EnabledModule(was.modules, Observability);
    if m.Some? && IsModuleEnabled(now, Observability) {
      var r := Retired(was, Some(now), m.value.components);
      if c :| Lapsed(was, Some(now), c) {
        NamedIn(m.value.components, c);
        assert c in r;
      }
      if r != [] { assert r[0] in r; }
    }
  }

  // The components the cleanup names to reconcileObservability; none stands for all.
  function Named(was: Spec, now: Spec): seq<string> {
    var m := EnabledModule(was.modules, Observability);
    if m.Some? && IsModuleEnabled(now, Observability) then Retired(was, Some(now), m.value.components) else []
  }

  lemma CleanupParts(t: Templates, was: Spec, now: Spec, op: Op)
    ensures op in CleanupOps(t, was, now) <==>
              || (ReplicaEnabled(was) && !ReplicaEnabled(now) && op in ReplicationOps(t, true, was))
              || (Renews(was, now) && op in ObservabilityOps(t, true, was, Named(was, now)))
  {
    RenewsIff(was, now);
  }

  // k is an object of the replication controller and of nothing else.
  ghost predicate ReplicationObject(t: Templates, k: Key) {
    && k in t.replication && k !in t.crds && k !in Keys(DriverSlots(t.driver))
    && (forall c :: k !in Keys(ComponentSlots(t, c))) && (forall c, mode :: k !in CertificateKeys(t, mode, c))
  }

  lemma ObservabilityMisses(t: Templates, deleting: bool, s: Spec, components: seq<string>, k: Key, op: Op)
    requires (forall c :: k !in Keys(ComponentSlots(t, c))) && (forall c, mode :: k !in CertificateKeys(t, mode, c))
    requires op in ObservabilityOps(t, deleting, s, components) && !Idle(op)
    ensures op.key != k
  {
    ObservabilityKinds(t, deleting, s, components, op);
    var m := EnabledModule(s.modules, Observability);
    var cs := if components == [] && m.Some? then Retired(s, None, m.value.components) else components;
    ComponentOpsHold(t, deleting, s, cs, op);
    if op in ComponentOps(t, deleting, s, cs) {
      var c :| c in cs && op in OneComponent(t, deleting, s, c);
      ComponentOp(t, deleting, s, c, op);
    } else {
      var first := FirstModule(s.modules, Observability).value.components;
      CertificateOpsHold(t, deleting, s, first, first, op);
      var e :| e in first && op in CertificateOp(t, deleting, s, first, e);
      IssueOp(t, deleting, s, first, e, op);
    }
  }

  lemma CleanupReplication(t: Templates, was: Spec, now: Spec, k: Key, op: Op)
    requires ReplicationObject(t, k) && op in CleanupOps(t, was, now) && !Idle(op) && op.key == k
    ensures op == Drop(k) && ReplicaEnabled(was) && !ReplicaEnabled(now)
  {
    CleanupParts(t, was, now, op);
    if ReplicaEnabled(was) && !ReplicaEnabled(now) && op in ReplicationOps(t, true, was) {
      ReplicationOnly(t, true, was, op);
    } else {
      ObservabilityMisses(t, true, was, Named(was, now), k, op);
    }
  }

  lemma ReplicationDropped(t: Templates, was: Spec, now: Spec, k: Key)
    requires ReplicationObject(t, k) && Abort !in CleanupOps(t, was, now)
    ensures Sweep(k) !in CleanupOps(t, was, now)
    ensures Drop(k) in CleanupOps(t, was, now) <==> ReplicaEnabled(was) && !ReplicaEnabled(now)
  {
    if Sweep(k) in CleanupOps(t, was, now) { CleanupReplication(t, was, now, k, Sweep(k)); }
    if Drop(k) in CleanupOps(t, was, now) { CleanupReplication(t, was, now, k, Drop(k)); }
    if ReplicaEnabled(was) && !ReplicaEnabled(now) { ReplicationLapses(t, was, now, k); }
  }

  lemma ReplicationLapses(t: Templates, was: Spec, now: Spec, k: Key)
    requires ReplicationObject(t, k) && Abort !in CleanupOps(t, was, now) && ReplicaEnabled(was) && !ReplicaEnabled(now)
    ensures Drop(k) in CleanupOps(t, was, now)
  {
    CleanupParts(t, was, now, Abort);
    var op := ReplicationReaches(t, true, was, k);
    CleanupParts(t, was, now, op);
    CleanupReplication(t, was, now, k, op);
  }

  lemma ReplicationPut(t: Templates, s: Spec, k: Key)
    requires ReplicationObject(t, k) && Abort !in DeployOps(t, s)
    ensures PutsOn(DeployOps(t, s), k) <==> t.driver.Csi? && IsModuleEnabled(s, Replication)
  {
    var ops := DeployOps(t, s);
    if PutsOn(ops, k) {
      var op := ThePut(ops, k);
      DeployParts(t, s, op);
      if op in PutAll(t, s, DriverSlots(t.driver)) {
        RewriteHolds(t, false, s, DriverSlots(t.driver), op);
      } else if !(IsModuleEnabled(s, Replication) && op in ReplicationOps(t, false, s)) {
        ObservabilityMisses(t, false, s, [], k, op);
      }
    }
    if t.driver.Csi? && IsModuleEnabled(s, Replication) {
      assert Abort !in ReplicationOps(t, false, s);
      var op := ReplicationReaches(t, false, s, k);
      assert op in ops;
    }
  }

  // After a successful sync a replication object is there exactly if the new spec enables
  // replication in any entry, or it was there and not both: the first entry of the recorded
  // spec enabled it, and the first of the new one does not. So dropping replication orphans
  // its objects exactly if the first entry of the recorded spec was not the enabled one.
  lemma ReplicationLeftIff(t: Templates, sc: Script, local: Stored, w: World, k: Key)
    requires Sync(t, sc, local, w).ok && !IsModuleEnabled(local.spec, AuthorizationServer) && local.spec.driver != ""
    requires local.previous.Some? && ReplicationObject(t, k)
    ensures k in Sync(t, sc, local, w).world.objects <==>
              || (t.driver.Csi? && IsModuleEnabled(local.spec, Replication))
              || (k in w.objects && !(ReplicaEnabled(local.previous.value) && !ReplicaEnabled(local.spec)))
    ensures !IsModuleEnabled(local.spec, Replication) && k in w.objects ==>
              (k in Sync(t, sc, local, w).world.objects <==> !ReplicaEnabled(local.previous.value))
  {
    SyncCompletes(t, sc, local, w);
    ReplicationDropped(t, local.previous.value, local.spec, k);
    ReplicationPut(t, local.spec, k);
    SyncLeaves(t, sc, local, w, k);
  }

  lemma SyncCompletes(t: Templates, sc: Script, local: Stored, w: World)
    requires Sync(t, sc, local, w).ok && !IsModuleEnabled(local.spec, AuthorizationServer) && local.spec.driver != ""
    requires local.previous.Some?
    ensures Abort !in CleanupOps(t, local.previous.value, local.spec) && Abort !in DeployOps(t, local.spec)
  {
    var ops, deploy := CleanupOps(t, local.previous.value, local.spec), DeployOps(t, local.spec);
    var w1 := RunAll(sc, EarlyOps(t, local.spec), w).world;
    var any: Key := Key("", "", "");
    RunSucceeds(sc, ops, w1, any);
    RunSucceeds(sc, deploy, Update(sc, RunAll(sc, ops, w1).world, local.(previous := Some(local.spec))).world, any);
  }

  // ---------- certificates ----------

  // k is a certificate object and nothing else.
  ghost predicate CertificateObject(t: Templates, k: Key) {
    && k !in t.replication && k !in t.crds && k !in Keys(DriverSlots(t.driver))
    && forall c :: k !in Keys(ComponentSlots(t, c))
  }

  // The first observability entry of the spec has k issued for an enabled component.
  ghost predicate HasIssued(t: Templates, s: Spec, k: Key) {
    var m := FirstModule(s.modules, Observability);
    m.Some? && exists e :: e in m.value.components && e.enabled && k in CertificateKeys(t, ModeOf(m.value.components, e.name), e.name)
  }

  lemma CertificateOrigin(t: Templates, deleting: bool, s: Spec, components: seq<string>, k: Key, op: Op)
    requires CertificateObject(t, k) && op in ObservabilityOps(t, deleting, s, components) && !Idle(op) && op.key == k
    ensures HasIssued(t, s, k) && !op.Sweep?
  {
    var m := EnabledModule(s.modules, Observability);
    var cs := if components == [] && m.Some? then Retired(s, None, m.value.components) else components;
    ComponentOpsHold(t, deleting, s, cs, op);
    if op in ComponentOps(t, deleting, s, cs) {
      var c :| c in cs && op in OneComponent(t, deleting, s, c);
      ComponentOp(t, deleting, s, c, op);
    } else {
      var first := FirstModule(s.modules, Observability).value.components;
      CertificateOpsHold(t, deleting, s, first, first, op);
      var e :| e in first && op in CertificateOp(t, deleting, s, first, e);
      IssueOp(t, deleting, s, first, e, op);
    }
  }

  lemma CertificateOpOf(t: Templates, deleting: bool, s: Spec, components: seq<string>, k: Key) returns (op: Op)
    requires HasIssued(t, s, k) && Abort !in ObservabilityOps(t, deleting, s, components)
    ensures op in ObservabilityOps(t, deleting, s, components) && Hits(deleting, op, k)
  {
    var first := FirstModule(s.modules, Observability).value.components;
    var e :| e in first && e.enabled && k in CertificateKeys(t, ModeOf(first, e.name), e.name);
    var ks := CertificateKeys(t, ModeOf(first, e.name), e.name);
    SlotKeys(Lenient, ks);
    op := SlotOp(t, deleting, s, Slots(Lenient, ks), k);
    assert op in CertificateOp(t, deleting, s, first, e);
    CertificateOpsHold(t, deleting, s, first, first, op);
    ObservabilityCerts(t, deleting, s, components, op);
  }

  lemma CertificateDropped(t: Templates, was: Spec, now: Spec, k: Key)
    requires CertificateObject(t, k) && Abort !in CleanupOps(t, was, now)
    ensures Sweep(k) !in CleanupOps(t, was, now)
    ensures Drop(k) in CleanupOps(t, was, now) <==> Renews(was, now) && HasIssued(t, was, k)
  {
    if Sweep(k) in CleanupOps(t, was, now) { CleanupCertificate(t, was, now, k, Sweep(k)); }
    if Drop(k) in CleanupOps(t, was, now) { CleanupCertificate(t, was, now, k, Drop(k)); }
    if Renews(was, now) && HasIssued(t, was, k) {
      CleanupParts(t, was, now, Abort);
      var op := CertificateOpOf(t, true, was, Named(was, now), k);
      CleanupParts(t, was, now, op);
      CleanupCertificate(t, was, now, k, op);
    }
  }

  lemma CleanupCertificate(t: Templates, was: Spec, now: Spec, k: Key, op: Op)
    requires CertificateObject(t, k) && op in CleanupOps(t, was, now) && !Idle(op) && op.key == k
    ensures !op.Sweep? && Renews(was, now) && HasIssued(t, was, k)
  {
    CleanupParts(t, was, now, op);
    if Renews(was, now) && op in ObservabilityOps(t, true, was, Named(was, now)) {
      CertificateOrigin(t, true, was, Named(was, now), k, op);
    } else {
      ReplicationOnly(t, true, was, op);
    }
  }

  lemma CertificateFromDeploy(t: Templates, s: Spec, k: Key, op: Op)
    requires CertificateObject(t, k) && op in DeployOps(t, s) && !Idle(op) && op.key == k
    ensures t.driver.Csi? && IsModuleEnabled(s, Observability) && HasIssued(t, s, k)
  {
    DeployParts(t, s, op);
    if op in PutAll(t, s, DriverSlots(t.driver)) {
      RewriteHolds(t, false, s, DriverSlots(t.driver), op);
    } else if IsModuleEnabled(s, Replication) && op in ReplicationOps(t, false, s) {
      ReplicationOnly(t, false, s, op);
    } else {
      CertificateOrigin(t, false, s, [], k, op);
    }
  }

  lemma DeployObserves(t: Templates, s: Spec, op: Op)
    requires t.driver.Csi? && IsModuleEnabled(s, Observability) && op in ObservabilityOps(t, false, s, [])
    ensures op in DeployOps(t, s)
  {
    assert op in ModuleOps(t, s);
  }

  lemma CertificatePut(t: Templates, s: Spec, k: Key)
    requires CertificateObject(t, k) && Abort !in DeployOps(t, s)
    ensures PutsOn(DeployOps(t, s), k) <==> t.driver.Csi? && IsModuleEnabled(s, Observability) && HasIssued(t, s, k)
  {
    if PutsOn(DeployOps(t, s), k) { CertificateFromDeploy(t, s, k, ThePut(DeployOps(t, s), k)); }
    if t.driver.Csi? && IsModuleEnabled(s, Observability) && HasIssued(t, s, k) {
      if Abort in ObservabilityOps(t, false, s, []) { DeployObserves(t, s, Abort); }
      var op := CertificateOpOf(t, false, s, [], k);
      DeployObserves(t, s, op);
    }
  }

  // After a successful sync a certificate object is there exactly if the new spec has it
  // issued, or it was there and the cleanup did not remove it: because nothing lapsed, or
  // because the recorded spec had it not issued.
  lemma CertificateLeftIff(t: Templates, sc: Script, local: Stored, w: World, k: Key)
    requires Sync(t, sc, local, w).ok && !IsModuleEnabled(local.spec, AuthorizationServer) && local.spec.driver != ""
    requires local.previous.Some? && CertificateObject(t, k)
    ensures k in Sync(t, sc, local, w).world.objects <==>
              || (t.driver.Csi? && IsModuleEnabled(local.spec, Observability) && HasIssued(t, local.spec, k))
              || (k in w.objects && !(Renews(local.previous.value, local.spec) && HasIssued(t, local.previous.value, k)))
  {
    SyncCompletes(t, sc, local, w);
    CertificateDropped(t, local.previous.value, local.spec, k);
    CertificatePut(t, local.spec, k);
    SyncLeaves(t, sc, local, w, k);
  }

  // A certificate that the recorded spec had issued and the new one has not: with consistent
  // lookups it outlives a successful sync exactly if no component lapsed, and then the only
  // reason is that a component stayed enabled and changed its mode.
  lemma ModeChangeLeavesIff(t: Templates, sc: Script, local: Stored, w: World, k: Key)
    requires Sync(t, sc, local, w).ok && !IsModuleEnabled(local.spec, AuthorizationServer) && local.spec.driver != ""
    requires local.previous.Some? && CertificateObject(t, k) && k in w.objects
    requires Tidy(local.previous.value) && Tidy(local.spec) && IsModuleEnabled(local.previous.value, Observability)
    requires HasIssued(t, local.previous.value, k) && !HasIssued(t, local.spec, k)
    ensures var was, now := local.previous.value, local.spec;
            && (k in Sync(t, sc, local, w).world.objects <==> !Renews(was, now))
            && (k in Sync(t, sc, local, w).world.objects ==>
                  exists c :: IsComponentEnabled(was, Observability, c) && IsComponentEnabled(now, Observability, c) && ModeIn(was, c) != ModeIn(now, c))
  {
    var was, now := local.previous.value, local.spec;
    CertificateLeftIff(t, sc, local, w, k);
    if !Renews(was, now) { ModeChanged(t, was, now, k); }
  }

  lemma ModeChanged(t: Templates, was: Spec, now: Spec, k: Key)
    requires Tidy(was) && Tidy(now) && IsModuleEnabled(was, Observability) && !Renews(was, now)
    requires HasIssued(t, was, k) && !HasIssued(t, now, k)
    ensures exists c :: IsComponentEnabled(was, Observability, c) && IsComponentEnabled(now, Observability, c) && ModeIn(was, c) != ModeIn(now, c)
  {
    var first := FirstModule(was.modules, Observability).value.components;
    var e :| e in first && e.enabled && k in CertificateKeys(t, ModeOf(first, e.name), e.name);
    ComponentLookup(was, e.name);
    assert !Lapsed(was, Some(now), e.name);
    ComponentLookup(now, e.name);
    var cs := FirstModule(now.modules, Observability).value.components;
    var e' :| e' in cs && e'.name == e.name && e'.enabled;
    assert k !in CertificateKeys(t, ModeOf(cs, e'.name), e'.name);
  }

  // ---------- orphans stay ----------

  // The stored and the recorded spec is s, which is its own working copy.
  ghost predicate Orphan(x: Watch, s: Spec, w: World) { Kept(x, s, w) && Prepare(x.t, s) == Ok(s) }

  ghost predicate Undisturbed(sc: Script) { forall i :: 0 <= i < |sc| ==> sc[i].user.Nothing? }

  lemma {:induction false} RunUndisturbed(sc: Script, ops: seq<Op>, w: World)
    requires Undisturbed(sc)
    ensures RunAll(sc, ops, w).world.cr == w.cr
    decreases |ops|
  {
    if ops != [] {
      var d := Run(sc, ops[0], w);
      StepCalls(sc, ops[0], w);
      if d.ok { RunUndisturbed(sc, ops[1..], d.world); }
    }
  }

  lemma OrphanSync(x: Watch, sc: Script, local: Stored, w: World)
    requires Undisturbed(sc) && Regular(x, local.spec) && !Owned(x, local.spec) && !OfDriver(x.t, x.key)
    requires x.key in w.objects && local.previous == Some(local.spec) && local == w.cr && !w.cr.gone && !w.cr.deleting && w.cr.finalizer
    ensures Kept(x, local.spec, Sync(x.t, sc, local, w).world)
  {
    var s := local.spec;
    if !IsModuleEnabled(s, AuthorizationServer) {
      var early, ops := EarlyOps(x.t, s), CleanupOps(x.t, s, s);
      RunUndisturbed(sc, early, w);
      OrphanEarly(x, sc, s, w);
      var w1 := RunAll(sc, early, w).world;
      RunUndisturbed(sc, ops, w1);
      OrphanCleanup(x, sc, s, w1);
      OrphanDeploy(x, sc, local, RunAll(sc, ops, w1).world);
    }
  }

  // The object is there and the resource still asks for s.
  ghost predicate Kept(x: Watch, s: Spec, w: World) {
    x.key in w.objects && !w.cr.gone && !w.cr.deleting && w.cr.finalizer && w.cr.spec == s && w.cr.previous == Some(s)
  }

  lemma OrphanDeploy(x: Watch, sc: Script, local: Stored, w: World)
    requires Undisturbed(sc) && local == w.cr && Kept(x, local.spec, w)
    ensures var rec := Update(sc, w, local.(previous := Some(local.spec)));
            Kept(x, local.spec, rec.world) && Kept(x, local.spec, RunAll(sc, DeployOps(x.t, local.spec), rec.world).world)
  {
    var rec := Update(sc, w, local.(previous := Some(local.spec)));
    RunUndisturbed(sc, DeployOps(x.t, local.spec), rec.world);
    DeployNeverRemoves(x.t, local.spec, x.key);
    RunKeys(sc, DeployOps(x.t, local.spec), rec.world, x.key);
  }

  lemma OrphanEarly(x: Watch, sc: Script, s: Spec, w: World)
    requires x.key in w.objects
    ensures x.key in RunAll(sc, EarlyOps(x.t, s), w).world.objects
  {
    var ops := EarlyOps(x.t, s);
    forall i | 0 <= i < |ops| && !Idle(ops[i]) ensures ops[i].Put? { EarlyOnly(x.t, s, ops[i]); }
    RunKeys(sc, ops, w, x.key);
  }

  lemma OrphanCleanup(x: Watch, sc: Script, s: Spec, w: World)
    requires Regular(x, s) && !Owned(x, s) && x.key in w.objects
    ensures x.key in RunAll(sc, CleanupOps(x.t, s, s), w).world.objects
  {
    var ops := CleanupOps(x.t, s, s);
    RunKeys(sc, ops, w, x.key);
    if RemovesOn(ops, x.key) {
      var i :| 0 <= i < |ops| && Removes(ops[i]) && ops[i].key == x.key;
      CleanupOnly(x, s, s, ops[i]);
    }
  }

  lemma OrphanReconcile(x: Watch, sc: Script, s: Spec, w: World)
    requires Undisturbed(sc) && Regular(x, s) && !Owned(x, s) && !OfDriver(x.t, x.key) && Orphan(x, s, w)
    ensures Orphan(x, s, Reconcile(x.t, sc, w))
  {
    var w0 := Advance(sc, w);
    if At(sc, w.clock).fault.Clear? {
      PreChecksDrift(x.t, sc, w0.cr, w0);
      var d := PreChecks(x.t, sc, w0.cr, w0);
      if d.ok { OrphanInstall(x, sc, s, w0.cr, d.world); }
    }
  }

  lemma OrphanInstall(x: Watch, sc: Script, s: Spec, local: Stored, w: World)
    requires Undisturbed(sc) && Regular(x, s) && !Owned(x, s) && !OfDriver(x.t, x.key) && Orphan(x, s, w) && local == w.cr
    ensures Orphan(x, s, Install(x.t, sc, local, w))
  {
    var v := NewConfig(x.t, local);
    var conf := if v.None? then Wrote(w, None) else Update(sc, w, local.(config := v));
    if conf.error.None? { OrphanSync(x, sc, if v.None? then local else conf.world.cr, conf.world); }
  }

  // Nothing brings an orphan back: while the user leaves the resource alone, no number of
  // reconciles, whatever their calls do, removes an object its spec does not own.
  lemma {:induction false} OrphanStays(x: Watch, sc: Script, s: Spec, w: World, n: nat)
    requires Undisturbed(sc) && Regular(x, s) && !Owned(x, s) && !OfDriver(x.t, x.key) && Orphan(x, s, w)
    ensures Orphan(x, s, History(x.t, sc, seq(n, i => Reconciles), w))
    decreases n
  {
    if n > 0 {
      var es := seq(n, i => Reconciles);
      assert es[1..] == seq(n - 1, i => Reconciles);
      OrphanReconcile(x, sc, s, w);
      OrphanStays(x, sc, s, Reconcile(x.t, sc, w), n - 1);
    }
  }
}
