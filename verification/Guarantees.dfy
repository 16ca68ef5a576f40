// What a user can count on, said without the reconciler's own lists.
module Guarantees {
  import opened Resource
  import opened Cluster
  import opened Api
  import opened Versions
  import opened Lifecycle
  import opened Operations
  import opened Safety
  import opened Recovery
  import opened Leftovers
  import Trail

  // ---------- modules ----------

  const Metric := {"metrics-powerscale", "metrics-powerflex", "metrics-powermax", "metrics-powerstore"}
  const Known := {"otel-collector", "cert-manager", "topology"} + Metric

  lemma ObservabilityDone(t: Templates, sc: Script, s: Spec, w: World)
    requires t.driver.Csi? && IsModuleEnabled(s, Observability) && RunAll(sc, DeployOps(t, s), w).ok
    ensures Abort !in ObservabilityOps(t, false, s, []) && forall op :: op in ObservabilityOps(t, false, s, []) ==> op in DeployOps(t, s)
  {
    RunSucceeds(sc, DeployOps(t, s), w, Key("", "", ""));
    forall op | op in ObservabilityOps(t, false, s, []) ensures op in DeployOps(t, s) { DeployObserves(t, s, op); }
  }

  lemma PutIsThere(t: Templates, sc: Script, s: Spec, w: World, op: Op)
    requires RunAll(sc, DeployOps(t, s), w).ok && op in DeployOps(t, s) && op.Put?
    ensures var m := RunAll(sc, DeployOps(t, s), w).world.objects;
            op.key in m && (Strong(op) ==> Holds(m, op.key, t.render(s, op.key)))
  {
    DeployNeverRemoves(t, s, op.key);
    RunSucceeds(sc, DeployOps(t, s), w, op.key);
    DeployRenders(t, sc, s, w, op.key);
  }

  // A successful deployment has every object of every enabled component, with what the spec
  // renders wherever the component's table insists on it, and only known components are enabled.
  lemma ComponentIsDeployed(t: Templates, sc: Script, s: Spec, w: World, c: string, x: Slot)
    requires t.driver.Csi? && RunAll(sc, DeployOps(t, s), w).ok && IsComponentEnabled(s, Observability, c)
    ensures c in Known
    ensures c in t.components && x in t.components[c] && (c == "topology" ==> t.topology) ==>
              var m := RunAll(sc, DeployOps(t, s), w).world.objects;
              x.key in m && (!x.style.CreateOnly? && !x.style.Lenient? ==> Holds(m, x.key, t.render(s, x.key)))
  {
    ObservabilityDone(t, sc, s, w);
    EnabledOps(t, s, c);
    if c in t.components && x in t.components[c] && (c == "topology" ==> t.topology) {
      var op := Put(x.style, x.key, t.render(s, x.key));
      SlotPut(t, s, ComponentSlots(t, c), x);
      assert op in OneComponent(t, false, s, c);
      PutIsThere(t, sc, s, w, op);
    }
  }

  // Everything the operator does for an enabled component is in the observability list.
  lemma EnabledOps(t: Templates, s: Spec, c: string)
    requires IsComponentEnabled(s, Observability, c) && Abort !in ObservabilityOps(t, false, s, [])
    ensures Supported(c) && forall op :: op in OneComponent(t, false, s, c) ==> op in ObservabilityOps(t, false, s, [])
  {
    var cs := Retired(s, None, EnabledModule(s.modules, Observability).value.components);
    ComponentAsked(s, [], c);
    forall op | op in OneComponent(t, false, s, c) ensures op in ObservabilityOps(t, false, s, []) {
      ComponentOpsHold(t, false, s, cs, op);
      ObservabilityParts(t, false, s, [], op);
    }
  }

  // i is the last entry of the name.
  ghost predicate LastEntry(cs: seq<Component>, i: nat, name: string) {
    i < |cs| && cs[i].name == name && forall j :: i < j < |cs| ==> cs[j].name != name
  }

  lemma {:induction false} ModeIsLast(cs: seq<Component>, i: nat, name: string)
    requires LastEntry(cs, i, name)
    ensures ModeOf(cs, name) == Issued(cs[i])
  {
    if cs[|cs| - 1].name != name {
      var init := cs[..|cs| - 1];
      assert init[i] == cs[i];
      ModeIsLast(init, i, name);
    }
  }

  lemma {:induction false} HasLast(cs: seq<Component>, name: string)
    requires exists e :: e in cs && e.name == name
    ensures exists i :: LastEntry(cs, i, name)
  {
    var n := |cs| - 1;
    if cs[n].name == name {
      assert LastEntry(cs, n, name);
    } else {
      HasLast(cs[..n], name);
      var i :| LastEntry(cs[..n], i, name);
      assert forall j :: 0 <= j < n ==> cs[..n][j] == cs[j];
      assert LastEntry(cs, i, name);
    }
  }

  // An enabled component with certificates whose last entry brings half of a pair.
  ghost predicate HalfPair(cs: seq<Component>) { exists e, i: nat :: HalfAt(cs, e, i) }

  ghost predicate HalfAt(cs: seq<Component>, e: Component, i: nat) {
    && e in cs && e.enabled && e.name in {"otel-collector", "topology", "metrics-powerstore"}
    && LastEntry(cs, i, e.name) && (cs[i].certificate == "") != (cs[i].privateKey == "")
  }

  // What makes a list of module operations fail on its own, with no call failing: a release
  // without config version where one is needed, an unknown component, or half of a pair.
  ghost predicate ReplicationBroken(t: Templates, s: Spec) {
    HasModule(s, Replication) && FirstModule(s.modules, Replication).value.configVersion == "" && GetVersion(t, s).Err?
  }

  ghost predicate ObservabilityBroken(t: Templates, s: Spec) {
    || GetVersion(t, s).Err?
    || (exists c :: IsComponentEnabled(s, Observability, c) && c !in Known)
    || (HasModule(s, Observability) && HalfPair(FirstModule(s.modules, Observability).value.components))
  }

  ghost predicate Broken(t: Templates, s: Spec) {
    || (IsModuleEnabled(s, Replication) && ReplicationBroken(t, s))
    || (IsModuleEnabled(s, Observability) && ObservabilityBroken(t, s))
  }

  lemma RewriteRuns(t: Templates, deleting: bool, s: Spec, slots: seq<Slot>)
    ensures Abort !in Rewrite(t, deleting, s, slots)
  {
  }

  lemma ReplicationAbortsIff(t: Templates, deleting: bool, s: Spec)
    requires IsModuleEnabled(s, Replication)
    ensures Abort in ReplicationOps(t, deleting, s) <==> ReplicationBroken(t, s)
  {
    EnabledIsThere(s.modules, Replication);
    RewriteRuns(t, deleting, s, Slots(Lenient, t.replication));
    assert Abort in [Abort] && Abort !in Lookup(s);
  }

  lemma ComponentsAbortIff(t: Templates, deleting: bool, s: Spec)
    requires IsModuleEnabled(s, Observability)
    ensures Abort in ComponentOps(t, deleting, s, Retired(s, None, EnabledModule(s.modules, Observability).value.components)) <==>
              exists c :: IsComponentEnabled(s, Observability, c) && c !in Known
  {
    var cs := Retired(s, None, EnabledModule(s.modules, Observability).value.components);
    ComponentOpsHold(t, deleting, s, cs, Abort);
    forall c ensures Abort in OneComponent(t, deleting, s, c) <==> c !in Known { OneAbortsIff(t, deleting, s, c); }
    forall c | IsComponentEnabled(s, Observability, c) ensures c in cs { ComponentAsked(s, [], c); }
  }

  lemma OneAbortsIff(t: Templates, deleting: bool, s: Spec, c: string)
    ensures Abort in OneComponent(t, deleting, s, c) <==> c !in Known
  {
    RewriteRuns(t, deleting, s, ComponentSlots(t, c));
    assert Abort in [Abort] && Abort !in Lookup(s);
  }

  lemma CertificatesAbortIff(t: Templates, deleting: bool, s: Spec, cs: seq<Component>)
    ensures Abort in CertificateOps(t, deleting, s, cs, cs) <==> HalfPair(cs)
  {
    CertificateOpsHold(t, deleting, s, cs, cs, Abort);
    if Abort in CertificateOps(t, deleting, s, cs, cs) {
      var e :| e in cs && Abort in CertificateOp(t, deleting, s, cs, e);
      CertificateAborts(t, deleting, s, cs, e);
    }
    if HalfPair(cs) {
      var e, i :| HalfAt(cs, e, i);
      ModeIsLast(cs, i, e.name);
      assert Abort in CertificateOp(t, deleting, s, cs, e);
    }
  }

  lemma CertificateAborts(t: Templates, deleting: bool, s: Spec, cs: seq<Component>, e: Component)
    requires e in cs && Abort in CertificateOp(t, deleting, s, cs, e)
    ensures HalfPair(cs)
  {
    RewriteRuns(t, deleting, s, Slots(Lenient, CertificateKeys(t, ModeOf(cs, e.name), e.name)));
    HasLast(cs, e.name);
    var i :| LastEntry(cs, i, e.name);
    ModeIsLast(cs, i, e.name);
    assert HalfAt(cs, e, i);
  }

  lemma ObservabilityAbortsIff(t: Templates, deleting: bool, s: Spec)
    requires IsModuleEnabled(s, Observability)
    ensures Abort in ObservabilityOps(t, deleting, s, []) <==> ObservabilityBroken(t, s)
  {
    EnabledIsThere(s.modules, Observability);
    ComponentsAbortIff(t, deleting, s);
    CertificatesAbortIff(t, deleting, s, FirstModule(s.modules, Observability).value.components);
    assert Abort in [Abort];
  }

  // Without a failing call a deployment succeeds exactly if the driver has no modules or none of
  // the enabled ones is broken; so does a removal.
  lemma DeploySucceedsIff(t: Templates, sc: Script, s: Spec, w: World)
    requires Quiet(sc, w.clock)
    ensures RunAll(sc, DeployOps(t, s), w).ok <==> t.driver.Cosi? || !Broken(t, s)
  {
    RewriteRuns(t, false, s, DriverSlots(t.driver));
    if IsModuleEnabled(s, Replication) { ReplicationAbortsIff(t, false, s); }
    if IsModuleEnabled(s, Observability) { ObservabilityAbortsIff(t, false, s); }
    QuietIff(sc, DeployOps(t, s), w);
  }

  lemma RemovalSucceedsIff(t: Templates, sc: Script, s: Spec, w: World)
    requires Quiet(sc, w.clock)
    ensures RunAll(sc, RemoveOps(t, s), w).ok <==> s.driver == "" || !Broken(t, s)
  {
    RemovalsAbortIff(t, s);
    DriverRemovalsRun(t.driver);
    QuietIff(sc, RemoveOps(t, s), w);
    assert s.driver != "" ==> RemoveOps(t, s) == [Gate] + DriverRemovals(t.driver) + ModuleRemovals(t, s);
  }

  lemma RemovalsAbortIff(t: Templates, s: Spec)
    ensures Abort in ModuleRemovals(t, s) <==> Broken(t, s)
  {
    if IsModuleEnabled(s, Replication) { ReplicationAbortsIff(t, true, s); }
    if IsModuleEnabled(s, Observability) { ObservabilityAbortsIff(t, true, s); }
  }

  lemma DriverRemovalsRun(d: Driver)
    ensures Abort !in DriverRemovals(d)
  {
  }

  lemma QuietIff(sc: Script, ops: seq<Op>, w: World)
    requires Quiet(sc, w.clock)
    ensures RunAll(sc, ops, w).ok <==> Abort !in ops
  {
    if Abort !in ops { QuietRun(sc, ops, w); }
    if RunAll(sc, ops, w).ok { RunSucceeds(sc, ops, w, Key("", "", "")); }
  }

  // And nothing else is written for observability: an object of an enabled component, in the way
  // its table says, or a certificate. Topology is left alone where the version has none.
  lemma ComponentOnly(t: Templates, s: Spec, op: Op)
    requires op.Put? && op in ObservabilityOps(t, false, s, []) && forall c, mode :: op.key !in CertificateKeys(t, mode, c)
    ensures exists c :: && IsComponentEnabled(s, Observability, c) && c in Known && c in t.components
                        && Slot(op.style, op.key) in t.components[c] && (c == "topology" ==> t.topology)
  {
    var m := EnabledModule(s.modules, Observability);
    var cs := if m.Some? then Retired(s, None, m.value.components) else [];
    if op in ComponentOps(t, false, s, cs) {
      var c := PutsComponent(t, s, cs, op);
    } else {
      PutsCertificate(t, s, FirstModule(s.modules, Observability).value.components, op);
    }
  }

  lemma PutsComponent(t: Templates, s: Spec, cs: seq<string>, op: Op) returns (c: string)
    requires op.Put? && op in ComponentOps(t, false, s, cs)
    ensures c in cs && c in Known && c in t.components && Slot(op.style, op.key) in t.components[c] && (c == "topology" ==> t.topology)
  {
    ComponentOpsHold(t, false, s, cs, op);
    c :| c in cs && op in OneComponent(t, false, s, c);
    PutsItsSlot(t, s, ComponentSlots(t, c), op);
  }

  lemma PutsItsSlot(t: Templates, s: Spec, slots: seq<Slot>, op: Op)
    requires op.Put? && op in PutAll(t, s, slots)
    ensures Slot(op.style, op.key) in slots && op.body == t.render(s, op.key)
  {
    var puts := PutAll(t, s, slots);
    var i :| 0 <= i < |puts| && puts[i] == op;
    assert slots[i] == Slot(op.style, op.key);
  }

  lemma PutsCertificate(t: Templates, s: Spec, cs: seq<Component>, op: Op)
    requires op.Put? && op in CertificateOps(t, false, s, cs, cs)
    ensures exists c, mode :: op.key in CertificateKeys(t, mode, c)
  {
    CertificateOpsHold(t, false, s, cs, cs, op);
    var e :| e in cs && op in CertificateOp(t, false, s, cs, e);
    IssueOp(t, false, s, cs, e, op);
  }

  // Replication objects, CRDs and certificates are applied, each as the spec renders it.
  lemma ModulePuts(t: Templates, s: Spec, cs: seq<Component>, op: Op)
    requires op.Put? && (op in ReplicationOps(t, false, s) || op in EarlyOps(t, s) || op in CertificateOps(t, false, s, cs, cs))
    ensures op == Put(Lenient, op.key, t.render(s, op.key))
    ensures op in ReplicationOps(t, false, s) ==> op.key in t.replication
    ensures op in EarlyOps(t, s) ==> op.key in t.crds
  {
    if op in ReplicationOps(t, false, s) { PutsItsSlot(t, s, Slots(Lenient, t.replication), op); }
    if op in EarlyOps(t, s) { PutsItsSlot(t, s, Slots(Lenient, t.crds), op); }
    CertificateOpsHold(t, false, s, cs, cs, op);
    if op in CertificateOps(t, false, s, cs, cs) {
      var e :| e in cs && op in CertificateOp(t, false, s, cs, e);
      PutsItsSlot(t, s, Slots(Lenient, CertificateKeys(t, ModeOf(cs, e.name), e.name)), op);
    }
  }

  // Exactly when one write succeeds, by what becomes of its calls. A Deployment's first read may
  // fail; a role that was created is read back; an account that exists is not written; applying
  // an existing module object tolerates Forbidden and Invalid.
  lemma PutSucceedsIff(sc: Script, style: Style, k: Key, b: Body, w: World)
    ensures var read, write := At(sc, w.clock).fault, At(sc, w.clock + 1).fault;
            var tolerated := k in w.objects && write.Refused? && write.why in {Forbidden, Invalid};
            Run(sc, Put(style, k, b), w).ok <==>
              && (style.DeployApply? || read.Clear?)
              && (write.Clear? || (style.CreateOnly? && k in w.objects) || (style.Lenient? && tolerated))
              && (style.Verified? && k !in w.objects ==> At(sc, w.clock + 2).fault.Clear?)
  {
  }

  // The certificates of an enabled component are those of its mode, which its last entry says:
  // self-signed with neither certificate nor key, its own with both.
  lemma CertificateIsDeployed(t: Templates, sc: Script, s: Spec, w: World, e: Component, i: nat, k: Key)
    requires t.driver.Csi? && RunAll(sc, DeployOps(t, s), w).ok && IsModuleEnabled(s, Observability)
    requires HasModule(s, Observability) && e.enabled && e.name in {"otel-collector", "topology", "metrics-powerstore"}
    requires var cs := FirstModule(s.modules, Observability).value.components; e in cs && LastEntry(cs, i, e.name)
    ensures var l := FirstModule(s.modules, Observability).value.components[i];
            var m := RunAll(sc, DeployOps(t, s), w).world.objects;
            && (l.certificate == "" <==> l.privateKey == "")
            && (l.certificate == "" && e.name in t.selfSigned && k in t.selfSigned[e.name] ==> k in m)
            && (l.certificate != "" && e.name in t.custom && k in t.custom[e.name] ==> k in m)
  {
    ObservabilityDone(t, sc, s, w);
    ModeIsLast(FirstModule(s.modules, Observability).value.components, i, e.name);
    CertificateListed(t, s, e);
    if k in IssuedKeys(t, s, e.name) {
      var op := CertificatePut(t, s, FirstModule(s.modules, Observability).value.components, e, k);
      PutIsThere(t, sc, s, w, op);
    }
  }

  function IssuedKeys(t: Templates, s: Spec, name: string): seq<Key>
    requires HasModule(s, Observability)
  {
    CertificateKeys(t, ModeOf(FirstModule(s.modules, Observability).value.components, name), name)
  }

  lemma CertificateListed(t: Templates, s: Spec, e: Component)
    requires HasModule(s, Observability) && Abort !in ObservabilityOps(t, false, s, [])
    requires e.enabled && e.name in {"otel-collector", "topology", "metrics-powerstore"}
    requires e in FirstModule(s.modules, Observability).value.components
    ensures var cs := FirstModule(s.modules, Observability).value.components;
            !ModeOf(cs, e.name).Half? && forall op :: op in CertificateOps(t, false, s, cs, cs) ==> op in ObservabilityOps(t, false, s, [])
  {
    var cs := FirstModule(s.modules, Observability).value.components;
    ObservabilityCerts(t, false, s, [], Abort);
    ModeIsWhole(t, s, cs, e);
    forall op | op in CertificateOps(t, false, s, cs, cs) ensures op in ObservabilityOps(t, false, s, []) {
      ObservabilityCerts(t, false, s, [], op);
    }
  }

  lemma ModeIsWhole(t: Templates, s: Spec, cs: seq<Component>, e: Component)
    requires e in cs && e.enabled && e.name in {"otel-collector", "topology", "metrics-powerstore"}
    requires Abort !in CertificateOps(t, false, s, cs, cs)
    ensures !ModeOf(cs, e.name).Half?
  {
    CertificateOpsHold(t, false, s, cs, cs, Abort);
    assert Abort !in CertificateOp(t, false, s, cs, e);
  }

  lemma CertificatePut(t: Templates, s: Spec, cs: seq<Component>, e: Component, k: Key) returns (op: Op)
    requires e in cs && e.enabled && e.name in {"otel-collector", "topology", "metrics-powerstore"}
    requires !ModeOf(cs, e.name).Half? && k in CertificateKeys(t, ModeOf(cs, e.name), e.name)
    ensures op.Put? && op.key == k && op in CertificateOps(t, false, s, cs, cs)
  {
    var keys := CertificateKeys(t, ModeOf(cs, e.name), e.name);
    SlotKeys(Lenient, keys);
    op := SlotOp(t, false, s, Slots(Lenient, keys), k);
    CertificateOpsHold(t, false, s, cs, cs, op);
  }

  // Half of a certificate pair makes every deployment fail.
  lemma HalfPairFails(t: Templates, sc: Script, s: Spec, w: World, e: Component, i: nat)
    requires t.driver.Csi? && IsModuleEnabled(s, Observability) && HasModule(s, Observability)
    requires e.enabled && e.name in {"otel-collector", "topology", "metrics-powerstore"}
    requires var cs := FirstModule(s.modules, Observability).value.components; e in cs && LastEntry(cs, i, e.name)
    requires var l := FirstModule(s.modules, Observability).value.components[i]; (l.certificate == "") != (l.privateKey == "")
    ensures !RunAll(sc, DeployOps(t, s), w).ok
  {
    if RunAll(sc, DeployOps(t, s), w).ok { CertificateIsDeployed(t, sc, s, w, e, i, Key("", "", "")); }
  }

  // When cert-manager is enabled no certificate is written before the step that waits for it.
  lemma CertificatesWait(t: Templates, s: Spec, j: nat, k: Key)
    requires CertificateObject(t, k) && IsComponentEnabled(s, Observability, "cert-manager") && s.version == ""
    requires j < |ObservabilityOps(t, false, s, [])| && Hits(false, ObservabilityOps(t, false, s, [])[j], k)
    ensures exists i :: 0 <= i < j && ObservabilityOps(t, false, s, [])[i] == Gate
  {
    var ops := ObservabilityOps(t, false, s, []);
    var cs := Retired(s, None, EnabledModule(s.modules, Observability).value.components);
    var a := ComponentOps(t, false, s, cs);
    if j < |a| {
      assert ops[j] == a[j] && a[j] in a;
      ComponentOpsHold(t, false, s, cs, a[j]);
      var c :| c in cs && a[j] in OneComponent(t, false, s, c);
      ComponentOp(t, false, s, c, a[j]);
    } else {
      assert ops[|a|] == Gate;
    }
  }

  // A successful deployment with replication enabled in any entry has the whole controller.
  lemma ReplicationIsDeployed(t: Templates, sc: Script, s: Spec, w: World, k: Key)
    requires t.driver.Csi? && RunAll(sc, DeployOps(t, s), w).ok && IsModuleEnabled(s, Replication) && k in t.replication
    ensures k in RunAll(sc, DeployOps(t, s), w).world.objects
  {
    RunSucceeds(sc, DeployOps(t, s), w, k);
    forall op | op in ReplicationOps(t, false, s) ensures op in DeployOps(t, s) { assert op in ModuleOps(t, s); }
    var op := ReplicationReaches(t, false, s, k);
    PutIsThere(t, sc, s, w, op);
  }

  // And a successful sync with it has the replication CRDs.
  lemma CrdsAreApplied(x: Watch, sc: Script, local: Stored, w: World)
    requires WellFormed(x) && x.key in x.t.crds && IsModuleEnabled(local.spec, Replication)
    requires local.previous.Some? ==> Regular(x, local.previous.value)
    requires Sync(x.t, sc, local, w).ok && !IsModuleEnabled(local.spec, AuthorizationServer)
    ensures x.key in Sync(x.t, sc, local, w).world.objects
  {
    var s, early := local.spec, EarlyOps(x.t, local.spec);
    SlotKeys(Lenient, x.t.crds);
    var op := SlotOp(x.t, false, s, Slots(Lenient, x.t.crds), x.key);
    assert op in early;
    EarlySpares(x, s);
    RunSucceeds(sc, early, w, x.key);
    var w1 := RunAll(sc, early, w).world;
    if s.driver != "" {
      CrdsOutliveCleanup(x, sc, local, w1);
      var w2 := RunAll(sc, Cleanup(x.t, local.previous, s), w1).world;
      DeployNeverRemoves(x.t, s, x.key);
      RunKeys(sc, DeployOps(x.t, s), Update(sc, w2, local.(previous := Some(s))).world, x.key);
    }
  }

  lemma CrdsOutliveCleanup(x: Watch, sc: Script, local: Stored, w: World)
    requires !Managed(x) && x.key in w.objects && (local.previous.Some? ==> Regular(x, local.previous.value))
    ensures x.key in RunAll(sc, Cleanup(x.t, local.previous, local.spec), w).world.objects
  {
    var ops := Cleanup(x.t, local.previous, local.spec);
    RunKeys(sc, ops, w, x.key);
    if RemovesOn(ops, x.key) {
      var i :| 0 <= i < |ops| && Removes(ops[i]) && ops[i].key == x.key;
      CleanupOnly(x, local.previous.value, local.spec, ops[i]);
    }
  }

  // ---------- defaults ----------

  // now is was with defaults behind it: every default is named, and each one added is new.
  ghost predicate Completed(was: seq<Component>, now: seq<Component>, ds: seq<Component>) {
    && was <= now
    && (forall i :: 0 <= i < |ds| ==> exists j :: 0 <= j < |now| && now[j].name == ds[i].name)
    && (forall j :: |was| <= j < |now| ==> now[j] in ds && forall i :: 0 <= i < j ==> now[i].name != now[j].name)
  }

  lemma {:induction false} DefaultsComplete(ms: seq<Module>, ds: seq<Component>)
    requires FirstModule(ms, Observability).Some?
    ensures FirstModule(AddDefaults(ms, ds), Observability).Some?
    ensures Completed(FirstModule(ms, Observability).value.components, FirstModule(AddDefaults(ms, ds), Observability).value.components, ds)
    decreases |ds|
  {
    if ds != [] {
      var was, d := FirstModule(ms, Observability).value.components, ds[0];
      if exists i :: 0 <= i < |was| && was[i].name == d.name {
        DefaultsComplete(ms, ds[1..]);
        CompletedOld(was, FirstModule(AddDefaults(ms, ds), Observability).value.components, ds);
      } else {
        FirstAdded(ms, d);
        DefaultsComplete(AddComponent(ms, d), ds[1..]);
        CompletedNew(was, FirstModule(AddDefaults(ms, ds), Observability).value.components, ds);
      }
    }
  }

  lemma CompletedOld(was: seq<Component>, now: seq<Component>, ds: seq<Component>)
    requires ds != [] && Completed(was, now, ds[1..]) && exists i :: 0 <= i < |was| && was[i].name == ds[0].name
    ensures Completed(was, now, ds)
  {
    var k :| 0 <= k < |was| && was[k].name == ds[0].name;
    assert now[k] == was[k];
    forall i | 1 <= i < |ds| ensures exists j :: 0 <= j < |now| && now[j].name == ds[i].name { assert ds[1..][i - 1] == ds[i]; }
  }

  lemma CompletedNew(was: seq<Component>, now: seq<Component>, ds: seq<Component>)
    requires ds != [] && Completed(was + [ds[0]], now, ds[1..]) && forall i :: 0 <= i < |was| ==> was[i].name != ds[0].name
    ensures Completed(was, now, ds)
  {
    var mid := was + [ds[0]];
    assert now[|was|] == mid[|was|] == ds[0];
    forall i | 0 <= i < |was| ensures now[i] == was[i] { assert now[i] == mid[i]; }
    forall i | 1 <= i < |ds| ensures exists j :: 0 <= j < |now| && now[j].name == ds[i].name { assert ds[1..][i - 1] == ds[i]; }
  }

  // The working copy of a spec with observability enabled has all its own components, in order,
  // and behind them the default components it does not name.
  lemma DefaultsAreAdded(t: Templates, s: Spec)
    requires Prepare(t, s).Ok? && IsModuleEnabled(s, Observability)
    ensures HasModule(s, Observability) && HasModule(Prepare(t, s).value, Observability) && t.defaults.Some?
    ensures Completed(FirstModule(s.modules, Observability).value.components,
                      FirstModule(Prepare(t, s).value.modules, Observability).value.components, t.defaults.value)
  {
    assert HasModule(s, Observability) by { EnabledIsThere(s.modules, Observability); }
    DefaultsComplete(s.modules, t.defaults.value);
    var full := s.(force := if s.force.None? then Some(true) else s.force).(modules := AddDefaults(s.modules, t.defaults.value));
    if HasModule(full, AuthorizationServer) { SetAuthElsewhere(full.modules, GetVersion(t, full).value); }
  }

  lemma EnabledIsThere(ms: seq<Module>, name: string)
    requires EnabledModule(ms, name).Some?
    ensures FirstModule(ms, name).Some?
  {
    var m :| m in ms && m.name == name && m.enabled;
    assert m in ms && m.name == name;
  }

  // ---------- versions ----------

  // The version a spec stands for: the mapping's if it names a release, whatever else it says;
  // else its config version; else that of its first authorization entry.
  lemma VersionGiven(t: Templates, s: Spec, v: string)
    ensures var platform := if s.driver == "isilon" then "powerscale"
                            else if s.driver == "" && HasModule(s, AuthorizationServer) then AuthorizationServer else s.driver;
            s.version != "" ==> (GetVersion(t, s) == Ok(v) <==> platform in t.versions && s.version in t.versions[platform] && t.versions[platform][s.version] == v)
    ensures s.version == "" && s.configVersion != "" ==> GetVersion(t, s) == Ok(s.configVersion)
    ensures s.version == "" && s.configVersion == "" && HasModule(s, AuthorizationServer) ==>
              GetVersion(t, s) == Ok(FirstModule(s.modules, AuthorizationServer).value.configVersion)
    ensures s.version == "" && s.configVersion == "" && !HasModule(s, AuthorizationServer) ==> GetVersion(t, s) == Ok("")
  {
  }

  // The recorded version may move to the one the spec stands for: for the authorization proxy
  // server also by a switch between v1 and v2.
  ghost predicate MayMove(t: Templates, local: Stored) {
    local.config.Some? ==>
      if HasModule(local.spec, AuthorizationServer) then
        var v := if local.spec.version != "" then GetVersion(t, local.spec)
                 else Ok(FirstModule(local.spec.modules, AuthorizationServer).value.configVersion);
        v.Ok? && (Trail.Switches(local.config.value, v.value) || Reaches(PathsOf(t, "authorization"), local.config.value, v.value))
      else
        var v := GetVersion(t, local.spec);
        v.Ok? && Reaches(PathsFor(t, local.spec.driver), local.config.value, v.value)
  }

  // Without failures the checks let through exactly the known drivers and the authorization
  // proxy server, with a version that may move.
  lemma ChecksLetThrough(t: Templates, sc: Script, local: Stored, w: World)
    requires Quiet(sc, w.clock)
    ensures PreChecks(t, sc, local, w).ok <==>
              && (local.spec.driver in {"isilon", "powerflex", "powerstore", "unity", "powermax", "cosi"} || HasModule(local.spec, AuthorizationServer))
              && MayMove(t, local)
  {
    RejectIff(t, local);
  }

  lemma RejectIff(t: Templates, local: Stored)
    ensures CheckUpgrade(t, local) != Reject <==> MayMove(t, local)
  {
    if local.config.Some? {
      var v := GetVersion(t, local.spec);
      if v.Ok? {
        ValidHopIff(PathsOf(t, "authorization"), local.config.value, v.value);
        ValidHopIff(PathsFor(t, local.spec.driver), local.config.value, v.value);
      }
      ValidHopIff(PathsOf(t, "authorization"), local.config.value, AuthVersion(local.spec));
    }
  }

  function PathsFor(t: Templates, driver: string): Paths { PathsOf(t, if driver == "isilon" then "powerscale" else driver) }

  // An upgrade the graph allows goes through: a reconcile without failures records it.
  lemma ValidUpgradeIsRecorded(t: Templates, sc: Script, w: World, s: Spec, u: string, v: string)
    requires Quiet(sc, w.clock) && !w.cr.gone && !w.cr.deleting && Prepare(t, w.cr.spec) == Ok(s) && Workable(t, w.cr.previous, s)
    requires w.cr.config == Some(u) && GetVersion(t, s) == Ok(v) && Reaches(PathsFor(t, s.driver), u, v)
    ensures Reconcile(t, sc, w).cr.config == Some(v) && Reconcile(t, sc, w).cr.previous == Some(s)
  {
    ValidHopIff(PathsFor(t, s.driver), u, v);
    assert CheckUpgrade(t, w.cr.(spec := s)) == Proceed;
    QuietReconcile(t, sc, w, s);
  }

  // One it does not allow changes nothing, whatever the calls do.
  lemma InvalidUpgradeIsRefused(t: Templates, sc: Script, w: World)
    requires var cr := Advance(sc, w).cr;
             && !cr.gone && cr.config.Some? && Prepare(t, cr.spec).Ok? && !HasModule(Prepare(t, cr.spec).value, AuthorizationServer)
             && var s := Prepare(t, cr.spec).value;
                GetVersion(t, s).Err? || !Reaches(PathsFor(t, s.driver), cr.config.value, GetVersion(t, s).value)
    ensures var v := Reconcile(t, sc, w);
            v.objects == w.objects && v.cr.config == w.cr.config && v.cr.previous == w.cr.previous && v.history == w.history
  {
    var w0 := Advance(sc, w);
    if At(sc, w.clock).fault.Clear? {
      var local := w0.cr.(spec := Prepare(t, w0.cr.spec).value);
      if GetVersion(t, local.spec).Ok? { ValidHopIff(PathsFor(t, local.spec.driver), local.config.value, GetVersion(t, local.spec).value); }
      assert CheckUpgrade(t, local) == Reject;
      RejectedIsIdle(t, sc, local, w0);
    }
  }

  lemma RejectedIsIdle(t: Templates, sc: Script, local: Stored, w: World)
    requires CheckUpgrade(t, local) == Reject
    ensures var d := PreChecks(t, sc, local, w);
            && !d.ok && d.world.objects == w.objects && d.world.history == w.history
            && Advance(sc, d.world).cr.config == w.cr.config && Advance(sc, d.world).cr.previous == w.cr.previous
  {
    PreChecksDrift(t, sc, local, w);
    AdvanceDrift(sc, PreChecks(t, sc, local, w).world);
  }

  // ---------- removal ----------

  // A resource that declines forced removal, or has no driver, leaves the cluster as it is.
  lemma DeclinedRemovalKeeps(t: Templates, sc: Script, w: World)
    requires var cr := Advance(sc, w).cr; cr.deleting && (cr.spec.force == Some(false) || cr.spec.driver == "")
    ensures Reconcile(t, sc, w).objects == w.objects
  {
    var w0 := Advance(sc, w);
    if At(sc, w.clock).fault.Clear? && !w0.cr.gone && Prepare(t, w0.cr.spec).Ok? {
      var local := w0.cr.(spec := Prepare(t, w0.cr.spec).value);
      PreChecksDrift(t, sc, local, w0);
      PrepareForce(t, w0.cr.spec);
      TeardownSpares(t, sc, local, PreChecks(t, sc, local, w0).world);
    }
  }

  lemma TeardownSpares(t: Templates, sc: Script, local: Stored, w: World)
    requires local.spec.force == Some(false) || local.spec.driver == ""
    ensures Teardown(t, sc, local, w).objects == w.objects
  {
    GateKeeps(sc, w);
  }

  lemma GateKeeps(sc: Script, w: World)
    ensures RunAll(sc, [Gate], w).world.objects == w.objects
  {
    assert [Gate][1..] == [];
  }

  // No choice is a choice for forced removal; a choice is kept.
  lemma PrepareForce(t: Templates, s: Spec)
    requires Prepare(t, s).Ok?
    ensures Prepare(t, s).value.force == (if s.force.None? then Some(true) else s.force) && Prepare(t, s).value.driver == s.driver
  {
  }

  // ---------- the resource ----------

  // A later state of the resource: the revision does not go back, a mark for deletion stays, and
  // a resource that is gone stays as it was.
  ghost predicate Onward(c: Stored, d: Stored) {
    d.revision >= c.revision && (c.deleting ==> d.deleting) && (c.gone ==> d == c)
  }

  lemma UpdateOnward(sc: Script, w: World, local: Stored)
    ensures Onward(w.cr, Update(sc, w, local).world.cr)
  {
  }

  lemma SyncOnward(t: Templates, sc: Script, local: Stored, w: World)
    ensures Onward(w.cr, Sync(t, sc, local, w).world.cr)
  {
    if IsModuleEnabled(local.spec, AuthorizationServer) {
      StepDrift(sc, Gate, w);
    } else {
      var w1 := RunAll(sc, EarlyOps(t, local.spec), w).world;
      RunDrift(sc, EarlyOps(t, local.spec), w);
      var w2 := RunAll(sc, Cleanup(t, local.previous, local.spec), w1).world;
      RunDrift(sc, Cleanup(t, local.previous, local.spec), w1);
      UpdateOnward(sc, w2, local.(previous := Some(local.spec)));
      RunDrift(sc, DeployOps(t, local.spec), Update(sc, w2, local.(previous := Some(local.spec))).world);
    }
  }

  lemma InstallOnward(t: Templates, sc: Script, local: Stored, w: World)
    ensures Onward(w.cr, Install(t, sc, local, w).cr)
  {
    UpdateOnward(sc, w, local.(finalizer := true));
    var fin := if local.finalizer then Wrote(w, None) else Update(sc, w, local.(finalizer := true));
    var l1 := if local.finalizer then local else fin.world.cr;
    var v := NewConfig(t, l1);
    UpdateOnward(sc, fin.world, l1.(config := v));
    var conf := if v.None? then Wrote(fin.world, None) else Update(sc, fin.world, l1.(config := v));
    SyncOnward(t, sc, if v.None? then l1 else conf.world.cr, conf.world);
  }

  lemma ReconcileOnward(t: Templates, sc: Script, w: World)
    ensures Onward(w.cr, Reconcile(t, sc, w).cr)
  {
    var w0 := Advance(sc, w);
    AdvanceDrift(sc, w);
    if At(sc, w.clock).fault.Clear? && !w0.cr.gone && Prepare(t, w0.cr.spec).Ok? {
      var local := w0.cr.(spec := Prepare(t, w0.cr.spec).value);
      var d := PreChecks(t, sc, local, w0);
      PreChecksDrift(t, sc, local, w0);
      AdvanceDrift(sc, d.world);
      InstallOnward(t, sc, local, d.world);
      var g := if Forced(local.spec) then RunAll(sc, RemoveOps(t, local.spec), d.world) else Done(d.world, true);
      RunDrift(sc, RemoveOps(t, local.spec), d.world);
      UpdateOnward(sc, g.world, local.(finalizer := false));
    }
  }

  // In every run the revision never goes back, a deletion is never taken back, and a resource
  // that is gone is never written again.
  lemma {:induction false} DeletionIsFinal(t: Templates, sc: Script, es: seq<Event>, w: World)
    ensures Onward(w.cr, History(t, sc, es, w).cr)
    decreases |es|
  {
    if es != [] {
      if es[0].Reconciles? { ReconcileOnward(t, sc, w); }
      DeletionIsFinal(t, sc, es[1..], Occurs(t, sc, es[0], w));
    }
  }
}
