// What every run of the reconciler keeps, however its calls fail and whatever the user does
// between them. Each lemma follows one object of the cluster.
module Safety {
  import opened Resource
  import opened Cluster
  import opened Api
  import opened Lifecycle
  import opened Operations

  // ---------- the lists of the reconciler ----------

  predicate Idle(op: Op) { op == Gate || op == Abort }

  lemma CleanupKinds(t: Templates, was: Spec, now: Spec, op: Op)
    requires op in CleanupOps(t, was, now)
    ensures Idle(op) || (Removes(op) && (op.Sweep? ==> Swept(t, op.key)))
  {
    var m := EnabledModule(was.modules, Observability);
    var cs := if m.Some? && IsModuleEnabled(now, Observability) then Retired(was, Some(now), m.value.components) else [];
    if !Idle(op) {
      if ReplicaEnabled(was) && op in ReplicationOps(t, true, was) {
        ReplicationOnly(t, true, was, op);
      } else {
        ObservabilityKinds(t, true, was, cs, op);
      }
    }
  }

  // The cleanup deletes nothing but what the old spec owns.
  lemma CleanupOnly(x: Watch, was: Spec, now: Spec, op: Op)
    requires Regular(x, was) && op in CleanupOps(x.t, was, now) && !Idle(op) && op.key == x.key
    ensures Owned(x, was)
  {
    if ReplicaEnabled(was) && op in ReplicationOps(x.t, true, was) {
      ReplicationOnly(x.t, true, was, op);
    } else {
      var m := EnabledModule(was.modules, Observability);
      var cs := if IsModuleEnabled(now, Observability) then Retired(was, Some(now), m.value.components) else [];
      ObservabilityOnly(x, true, was, cs, op);
    }
  }

  // The cleanup addresses whatever the old spec owns and the new one does not.
  lemma CleanupReaches(x: Watch, was: Spec, now: Spec) returns (op: Op)
    requires Regular(x, was) && Abort !in CleanupOps(x.t, was, now)
    requires Owned(x, was) && !Owned(x, now)
    ensures op in CleanupOps(x.t, was, now) && Hits(true, op, x.key)
  {
    if ReplicaEnabled(was) && x.key in x.t.replication {
      op := ReplicationReaches(x.t, true, was, x.key);
    } else {
      var c :| IsComponentEnabled(was, Observability, c) && OfComponent(x, c);
      var m := EnabledModule(was.modules, Observability);
      NamedIn(m.value.components, c);
      var cs := if IsModuleEnabled(now, Observability) then Retired(was, Some(now), m.value.components) else [];
      assert !IsComponentEnabled(now, Observability, c);
      op := ObservabilityReaches(x, true, was, cs, c);
    }
  }

  // The parts of a deployment.
  lemma DeployParts(t: Templates, s: Spec, op: Op)
    requires op in DeployOps(t, s) && !Idle(op)
    ensures || op in PutAll(t, s, DriverSlots(t.driver))
            || (IsModuleEnabled(s, Replication) && op in ReplicationOps(t, false, s))
            || (IsModuleEnabled(s, Observability) && op in ObservabilityOps(t, false, s, []))
  {
  }

  // Every write of a deployment carries what the spec renders.
  lemma DeployKinds(t: Templates, s: Spec, op: Op)
    requires op in DeployOps(t, s)
    ensures Idle(op) || (op.Put? && op.body == t.render(s, op.key))
  {
    if !Idle(op) {
      DeployParts(t, s, op);
      if op in PutAll(t, s, DriverSlots(t.driver)) {
        RewriteHolds(t, false, s, DriverSlots(t.driver), op);
      } else if IsModuleEnabled(s, Replication) && op in ReplicationOps(t, false, s) {
        ReplicationOnly(t, false, s, op);
      } else {
        ObservabilityKinds(t, false, s, [], op);
      }
    }
  }

  lemma DeployOnly(x: Watch, s: Spec, op: Op)
    requires Regular(x, s) && op in DeployOps(x.t, s) && !Idle(op) && op.key == x.key
    ensures OfDriver(x.t, x.key) || Owned(x, s)
  {
    DeployParts(x.t, s, op);
    if op in PutAll(x.t, s, DriverSlots(x.t.driver)) {
      RewriteHolds(x.t, false, s, DriverSlots(x.t.driver), op);
      assert PutsOn(PutAll(x.t, s, DriverSlots(x.t.driver)), op.key);
      DriverPuts(x.t, s, op.key);
    } else if IsModuleEnabled(s, Replication) && op in ReplicationOps(x.t, false, s) {
      ReplicationOnly(x.t, false, s, op);
    } else {
      ObservabilityOnly(x, false, s, [], op);
    }
  }

  lemma DeployReaches(x: Watch, s: Spec)
    requires Regular(x, s) && Abort !in DeployOps(x.t, s)
    requires Deploys(x.t, x.key) || (x.t.driver.Csi? && Owned(x, s))
    ensures PutsOn(DeployOps(x.t, s), x.key)
  {
    var op: Op;
    if Deploys(x.t, x.key) {
      var y := DriverSlot(x.t, x.key);
      SlotKey(DriverSlots(x.t.driver), y);
      op := SlotOp(x.t, false, s, DriverSlots(x.t.driver), x.key);
    } else if ReplicaEnabled(s) && x.key in x.t.replication {
      assert Abort !in ReplicationOps(x.t, false, s);
      op := ReplicationReaches(x.t, false, s, x.key);
    } else {
      var c :| IsComponentEnabled(s, Observability, c) && OfComponent(x, c);
      assert Abort !in ObservabilityOps(x.t, false, s, []);
      op := ObservabilityReaches(x, false, s, [], c);
    }
    assert op in DeployOps(x.t, s);
  }

  lemma SlotKey(slots: seq<Slot>, y: Slot)
    requires y in slots
    ensures y.key in Keys(slots)
  {
    var i :| 0 <= i < |slots| && slots[i] == y;
    assert Keys(slots)[i] == y.key;
  }

  // The write a slot stands for.
  lemma SlotPut(t: Templates, s: Spec, slots: seq<Slot>, y: Slot)
    requires y in slots
    ensures Put(y.style, y.key, t.render(s, y.key)) in PutAll(t, s, slots)
  {
    var i :| 0 <= i < |slots| && slots[i] == y;
    assert PutAll(t, s, slots)[i] == Put(y.style, y.key, t.render(s, y.key));
  }

  lemma RemoveParts(t: Templates, s: Spec, op: Op)
    requires op in RemoveOps(t, s) && !Idle(op)
    ensures || op in DriverRemovals(t.driver)
            || (IsModuleEnabled(s, Replication) && op in ReplicationOps(t, true, s))
            || (IsModuleEnabled(s, Observability) && op in ObservabilityOps(t, true, s, []))
  {
  }

  // The removal takes away the driver and whatever the spec owns, and nothing else.
  lemma RemoveOnly(x: Watch, s: Spec, op: Op)
    requires Regular(x, s) && op in RemoveOps(x.t, s) && !Idle(op)
    ensures Removes(op)
    ensures op.key == x.key ==> OfDriver(x.t, x.key) || (Owned(x, s) && (op.Sweep? ==> Swept(x.t, x.key)))
  {
    RemoveParts(x.t, s, op);
    if op in DriverRemovals(x.t.driver) {
      DriverDrops(x.t, op.key);
    } else if IsModuleEnabled(s, Replication) && op in ReplicationOps(x.t, true, s) {
      ReplicationOnly(x.t, true, s, op);
    } else {
      ObservabilityKinds(x.t, true, s, [], op);
      if op.key == x.key { ObservabilityOnly(x, true, s, [], op); }
    }
  }

  lemma RemoveReaches(x: Watch, s: Spec)
    requires Regular(x, s) && s.driver != "" && Abort !in RemoveOps(x.t, s)
    ensures Owned(x, s) || OfDriver(x.t, x.key) ==> exists op :: op in RemoveOps(x.t, s) && Hits(true, op, x.key)
  {
    if OfDriver(x.t, x.key) {
      DriverDrops(x.t, x.key);
      var op := if Drop(x.key) in DriverRemovals(x.t.driver) then Drop(x.key) else Sweep(x.key);
      assert op in RemoveOps(x.t, s) && Hits(true, op, x.key);
    } else if Owned(x, s) {
      var op: Op;
      if ReplicaEnabled(s) && x.key in x.t.replication {
        assert Abort !in ReplicationOps(x.t, true, s);
        op := ReplicationReaches(x.t, true, s, x.key);
      } else {
        var c :| IsComponentEnabled(s, Observability, c) && OfComponent(x, c);
        assert Abort !in ObservabilityOps(x.t, true, s, []);
        op := ObservabilityReaches(x, true, s, [], c);
      }
      assert op in RemoveOps(x.t, s) && Hits(true, op, x.key);
    }
  }

  // ---------- the invariant ----------

  // A module object in the cluster is owned by the recorded spec.
  ghost predicate Safe(x: Watch, sc: Script, m: Objects, recorded: Option<Spec>) {
    x.key in m && Managed(x) && Firm(x, sc) ==> recorded.Some? && Owned(x, recorded.value)
  }

  ghost predicate Tracked(x: Watch) { OfDriver(x.t, x.key) || Managed(x) }

  // After a forced removal no driver object is left, and of the modules only what a pending
  // edit had disabled.
  ghost predicate Cleared(x: Watch, sc: Script, w: World) {
    Forced(w.cr.spec) && w.cr.spec.driver != "" && x.key in w.objects ==>
      && (Sighted(sc, 0) ==> !OfDriver(x.t, x.key))
      && (Managed(x) && Firm(x, sc) ==> w.cr.previous.Some? && Owned(x, w.cr.previous.value) && !Owned(x, w.cr.spec))
  }

  ghost predicate Good(x: Watch, sc: Script, w: World) {
    && Regular(x, w.cr.spec) && (w.cr.previous.Some? ==> Regular(x, w.cr.previous.value))
    && (!w.cr.gone ==> Safe(x, sc, w.objects, w.cr.previous) && (w.cr.deleting ==> w.cr.finalizer))
    && (!w.cr.gone && !w.cr.finalizer ==> !(x.key in w.objects && Tracked(x)))
    && (w.cr.gone ==> Cleared(x, sc, w))
  }

  // base is what the server held when the reconciler last read it; local its working copy.
  ghost predicate Copy(x: Watch, base: Stored, local: Stored, w: World) {
    && !base.gone && Drift(base, w.cr)
    && local == base.(spec := local.spec) && Regular(x, local.spec)
  }

  lemma GoodAdvance(x: Watch, sc: Script, w: World)
    requires Disciplined(x, sc) && Good(x, sc, w)
    ensures Good(x, sc, Advance(sc, w))
  {
    GoodAct(x, sc, w, At(sc, w.clock).user);
  }

  lemma GoodAct(x: Watch, sc: Script, w: World, a: Action)
    requires RegularAction(x, a) && Good(x, sc, w)
    ensures Good(x, sc, w.(cr := Acts(w.cr, a)))
  {
  }

  // A run that puts the object only if the recorded spec owns it keeps the invariant.
  lemma GoodRun(x: Watch, sc: Script, ops: seq<Op>, w: World)
    requires Disciplined(x, sc) && Good(x, sc, w) && !w.cr.gone && w.cr.finalizer
    requires PutsOn(ops, x.key) && Managed(x) ==> w.cr.previous.Some? && Owned(x, w.cr.previous.value)
    ensures Good(x, sc, RunAll(sc, ops, w).world)
  {
    RunDrift(sc, ops, w);
    RunRegular(x, sc, ops, w);
    RunKeys(sc, ops, w, x.key);
  }

  // An update lands on exactly the resource that was read, or does not land.
  lemma UpdateLands(sc: Script, w: World, base: Stored, local: Stored)
    requires !base.gone && Drift(base, w.cr) && local.revision == base.revision
    ensures var u := Update(sc, w, local);
            && u.world.objects == w.objects && u.world.clock == w.clock + 1
            && (|| (u.error.Some? && Drift(base, u.world.cr) && u.world.history == w.history && u.world.cr == Advance(sc, w).cr)
                || (u.world.cr == Replaced(base, local) &&
                    u.world.history == w.history + (if local.config != base.config then [Hop(local.spec, base.config, local.config)] else [])))
  {
    var w1 := Advance(sc, w);
    AdvanceDrift(sc, w);
    DriftTransitive(base, w.cr, w1.cr);
  }

  lemma EarlyOnly(t: Templates, s: Spec, op: Op)
    requires op in EarlyOps(t, s) && !Idle(op)
    ensures op.Put? && op.key in t.crds
  {
    RewriteHolds(t, false, s, Slots(Lenient, t.crds), op);
    SlotKeys(Lenient, t.crds);
  }

  lemma EarlySpares(x: Watch, s: Spec)
    requires WellFormed(x)
    ensures PutsOn(EarlyOps(x.t, s), x.key) ==> !Managed(x)
    ensures !RemovesOn(EarlyOps(x.t, s), x.key)
  {
    var ops := EarlyOps(x.t, s);
    forall i | 0 <= i < |ops| && !Idle(ops[i]) ensures ops[i].Put? && (ops[i].key == x.key ==> !Managed(x)) {
      EarlyOnly(x.t, s, ops[i]);
    }
  }

  lemma CleanupNeverPuts(t: Templates, was: Spec, now: Spec, k: Key)
    ensures !PutsOn(CleanupOps(t, was, now), k)
  {
    var ops := CleanupOps(t, was, now);
    forall i | 0 <= i < |ops| ensures !ops[i].Put? { CleanupKinds(t, was, now, ops[i]); }
  }

  lemma DeployNeverRemoves(t: Templates, s: Spec, k: Key)
    ensures !RemovesOn(DeployOps(t, s), k)
  {
    var ops := DeployOps(t, s);
    forall i | 0 <= i < |ops| ensures !Removes(ops[i]) { DeployKinds(t, s, ops[i]); }
  }

  // After a successful cleanup, a firm object that is left is owned by both specs.
  lemma CleanupSafe(x: Watch, sc: Script, was: Spec, now: Spec, w: World)
    requires Regular(x, was) && Safe(x, sc, w.objects, Some(was))
    ensures var d := RunAll(sc, CleanupOps(x.t, was, now), w);
            Safe(x, sc, d.world.objects, Some(was)) && (d.ok ==> Safe(x, sc, d.world.objects, Some(now)))
  {
    var ops := CleanupOps(x.t, was, now);
    var d := RunAll(sc, ops, w);
    RunKeys(sc, ops, w, x.key);
    CleanupNeverPuts(x.t, was, now, x.key);
    if d.ok && x.key in d.world.objects && Managed(x) && Firm(x, sc) && !Owned(x, now) {
      RunSucceeds(sc, ops, w, x.key);
      var op := CleanupReaches(x, was, now);
      CleanupKinds(x.t, was, now, op);
    }
  }

  // SyncCSM up to the write of the annotation.
  function BeforeRecord(t: Templates, sc: Script, local: Stored, w: World): Done {
    var early := RunAll(sc, EarlyOps(t, local.spec), w);
    if !early.ok || local.spec.driver == "" then early
    else RunAll(sc, if local.previous.Some? then CleanupOps(t, local.previous.value, local.spec) else [], early.world)
  }

  lemma EarlyGood(x: Watch, sc: Script, base: Stored, s: Spec, w: World)
    requires WellFormed(x) && Disciplined(x, sc) && Good(x, sc, w) && !base.gone && Drift(base, w.cr) && base.finalizer
    ensures var d := RunAll(sc, EarlyOps(x.t, s), w);
            Good(x, sc, d.world) && Drift(base, d.world.cr) && d.world.history == w.history
  {
    EarlySpares(x, s);
    GoodRun(x, sc, EarlyOps(x.t, s), w);
    RunDrift(sc, EarlyOps(x.t, s), w);
    DriftTransitive(base, w.cr, RunAll(sc, EarlyOps(x.t, s), w).world.cr);
  }

  lemma CleanupGood(x: Watch, sc: Script, base: Stored, was: Spec, now: Spec, w: World)
    requires Disciplined(x, sc) && Good(x, sc, w) && !base.gone && Drift(base, w.cr) && base.finalizer && base.previous == Some(was)
    ensures var d := RunAll(sc, CleanupOps(x.t, was, now), w);
            && Good(x, sc, d.world) && Drift(base, d.world.cr) && d.world.history == w.history
            && (d.ok ==> Safe(x, sc, d.world.objects, Some(now)))
  {
    var ops := CleanupOps(x.t, was, now);
    CleanupNeverPuts(x.t, was, now, x.key);
    GoodRun(x, sc, ops, w);
    RunDrift(sc, ops, w);
    DriftTransitive(base, w.cr, RunAll(sc, ops, w).world.cr);
    CleanupSafe(x, sc, was, now, w);
  }

  lemma BeforeRecordSafe(x: Watch, sc: Script, base: Stored, local: Stored, w: World)
    requires WellFormed(x) && Disciplined(x, sc) && Good(x, sc, w) && Copy(x, base, local, w) && base.finalizer
    ensures var d := BeforeRecord(x.t, sc, local, w);
            && Good(x, sc, d.world) && Drift(base, d.world.cr) && d.world.history == w.history
            && (d.ok && local.spec.driver != "" ==> Safe(x, sc, d.world.objects, Some(local.spec)))
  {
    EarlyGood(x, sc, base, local.spec, w);
    var early := RunAll(sc, EarlyOps(x.t, local.spec), w);
    if early.ok && local.spec.driver != "" && local.previous.Some? {
      CleanupGood(x, sc, base, local.previous.value, local.spec, early.world);
    }
  }

  lemma SyncKeeps(x: Watch, sc: Script, base: Stored, local: Stored, w: World)
    requires WellFormed(x) && Disciplined(x, sc) && Good(x, sc, w) && Copy(x, base, local, w) && base.finalizer && !base.deleting
    ensures Good(x, sc, Sync(x.t, sc, local, w).world)
  {
    if IsModuleEnabled(local.spec, AuthorizationServer) {
      GoodAdvance(x, sc, w);
    } else {
      BeforeRecordSafe(x, sc, base, local, w);
      var clean := BeforeRecord(x.t, sc, local, w);
      if clean.ok && local.spec.driver != "" { RecordKeeps(x, sc, base, local, clean.world); }
    }
  }

  // Writing the annotation and deploying.
  lemma RecordKeeps(x: Watch, sc: Script, base: Stored, local: Stored, w: World)
    requires WellFormed(x) && Disciplined(x, sc) && Good(x, sc, w) && Copy(x, base, local, w) && base.finalizer && !base.deleting
    requires Safe(x, sc, w.objects, Some(local.spec))
    ensures var rec := Update(sc, w, local.(previous := Some(local.spec)));
            Good(x, sc, rec.world) && (rec.error.None? ==> Good(x, sc, RunAll(sc, DeployOps(x.t, local.spec), rec.world).world))
  {
    var local' := local.(previous := Some(local.spec));
    var rec := Update(sc, w, local');
    UpdateLands(sc, w, base, local');
    GoodAdvance(x, sc, w);
    if rec.error.None? {
      var ops := DeployOps(x.t, local.spec);
      if PutsOn(ops, x.key) { DeployOnly(x, local.spec, ThePut(ops, x.key)); }
      GoodRun(x, sc, ops, rec.world);
    }
  }

  // ---------- what a successful sync leaves ----------

  // A successful sync leaves a firm module object exactly if the spec asks for it (the
  // object-storage driver asks for none), and the driver's.
  lemma SyncConverges(x: Watch, sc: Script, base: Stored, local: Stored, w: World)
    requires WellFormed(x) && Disciplined(x, sc) && Good(x, sc, w) && Copy(x, base, local, w) && base.finalizer && !base.deleting
    requires local.spec.driver != "" && !IsModuleEnabled(local.spec, AuthorizationServer)
    requires Sync(x.t, sc, local, w).ok
    ensures var w' := Sync(x.t, sc, local, w).world;
            && w'.cr.previous == Some(local.spec)
            && (Managed(x) && Firm(x, sc) ==> (x.key in w'.objects ==> Owned(x, local.spec)))
            && (x.t.driver.Csi? && Owned(x, local.spec) ==> x.key in w'.objects)
            && (Deploys(x.t, x.key) ==> x.key in w'.objects)
            && Rendered(x.t, local.spec, w'.objects, x.key) && DriverContents(x.t, local.spec, w'.objects, x.key)
  {
    BeforeRecordSafe(x, sc, base, local, w);
    var clean := BeforeRecord(x.t, sc, local, w);
    var local' := local.(previous := Some(local.spec));
    var rec := Update(sc, clean.world, local');
    UpdateLands(sc, clean.world, base, local');
    var ops := DeployOps(x.t, local.spec);
    RunDrift(sc, ops, rec.world);
    DeployNeverRemoves(x.t, local.spec, x.key);
    RunKeys(sc, ops, rec.world, x.key);
    RunSucceeds(sc, ops, rec.world, x.key);
    if PutsOn(ops, x.key) { DeployOnly(x, local.spec, ThePut(ops, x.key)); }
    if Deploys(x.t, x.key) || (x.t.driver.Csi? && Owned(x, local.spec)) { DeployReaches(x, local.spec); }
    DeployRenders(x.t, sc, local.spec, rec.world, x.key);
    RenderedDriver(x, local.spec, RunAll(sc, ops, rec.world).world.objects);
  }

  // The contents of a driver object: a workload holds what the spec renders, roles, bindings,
  // ConfigMap and CSIDriver are exactly that, and a service account is only there.
  ghost predicate DriverContents(t: Templates, s: Spec, m: Objects, k: Key) {
    && (Deploys(t, k) && !IsAccount(t, k) ==> Holds(m, k, t.render(s, k)))
    && (Deploys(t, k) && !IsAccount(t, k) && !IsWorkload(t, k) ==> k in m && m[k] == t.render(s, k))
  }

  lemma RenderedDriver(x: Watch, s: Spec, m: Objects)
    requires WellFormed(x) && Regular(x, s) && Rendered(x.t, s, m, x.key)
    ensures DriverContents(x.t, s, m, x.key)
  {
    if Deploys(x.t, x.key) && !IsAccount(x.t, x.key) {
      var y := DriverSlot(x.t, x.key);
      SlotPut(x.t, s, DriverSlots(x.t.driver), y);
      var op := Put(y.style, y.key, x.t.render(s, y.key));
      assert op in DeployOps(x.t, s) && Strong(op);
      PutsByDriver(x, s, op);
    }
  }

  // Every write of a deployment to a driver object is the driver's own, and replaces it unless
  // it is an account or a workload.
  lemma PutsByDriver(x: Watch, s: Spec, one: Op)
    requires WellFormed(x) && Regular(x, s) && Deploys(x.t, x.key) && one in DeployOps(x.t, s) && one.Put? && one.key == x.key
    ensures PutsOn(DeployOps(x.t, s), x.key)
    ensures !IsAccount(x.t, x.key) && !IsWorkload(x.t, x.key) ==>
              forall op :: op in DeployOps(x.t, s) && op.Put? && op.key == x.key ==> Replaces(op)
  {
    if !IsAccount(x.t, x.key) && !IsWorkload(x.t, x.key) {
      forall op | op in DeployOps(x.t, s) && op.Put? && op.key == x.key ensures Replaces(op) { DriverReplaces(x, s, op); }
    }
  }

  lemma DriverReplaces(x: Watch, s: Spec, op: Op)
    requires WellFormed(x) && Regular(x, s) && Deploys(x.t, x.key) && !IsAccount(x.t, x.key) && !IsWorkload(x.t, x.key)
    requires op in DeployOps(x.t, s) && op.Put? && op.key == x.key
    ensures Replaces(op)
  {
    DeployParts(x.t, s, op);
    if op in PutAll(x.t, s, DriverSlots(x.t.driver)) {
      var ops := PutAll(x.t, s, DriverSlots(x.t.driver));
      var i :| 0 <= i < |ops| && ops[i] == op;
      DriverSlotsAre(x.t.driver, DriverSlots(x.t.driver)[i]);
    } else if IsModuleEnabled(s, Replication) && op in ReplicationOps(x.t, false, s) {
      ReplicationOnly(x.t, false, s, op);
    } else {
      ObservabilityOnly(x, false, s, [], op);
    }
  }

  // What the spec renders for k is in the cluster wherever a write of the deployment insists
  // on it; where every write replaces, nothing else is.
  ghost predicate Rendered(t: Templates, s: Spec, m: Objects, k: Key) {
    var ops := DeployOps(t, s);
    && ((exists op :: op in ops && Strong(op) && op.key == k) ==> Holds(m, k, t.render(s, k)))
    && (PutsOn(ops, k) && (forall op :: op in ops && op.Put? && op.key == k ==> Replaces(op)) ==> k in m && m[k] == t.render(s, k))
  }

  lemma DeployRenders(t: Templates, sc: Script, s: Spec, w: World, k: Key)
    requires RunAll(sc, DeployOps(t, s), w).ok
    ensures Rendered(t, s, RunAll(sc, DeployOps(t, s), w).world.objects, k)
  {
    var ops := DeployOps(t, s);
    forall i | 0 <= i < |ops| && ops[i].Put? && ops[i].key == k ensures ops[i].body == t.render(s, k) { DeployKinds(t, s, ops[i]); }
    DeployNeverRemoves(t, s, k);
    RunHolds(sc, ops, w, k, t.render(s, k));
    if op :| op in ops && Strong(op) && op.key == k { var i :| 0 <= i < |ops| && ops[i] == op; }
  }

  // ---------- the working copy ----------

  // The default components issue their certificates in the watched modes.
  ghost predicate DefaultsAgree(x: Watch) {
    x.t.defaults.Some? ==> forall d :: d in x.t.defaults.value ==> ModeFits(x, Issued(d), d.name)
  }

  lemma {:induction false} FirstAdded(ms: seq<Module>, d: Component)
    requires FirstModule(ms, Observability).Some?
    ensures var m := FirstModule(ms, Observability).value;
            FirstModule(AddComponent(ms, d), Observability) == Some(m.(components := m.components + [d]))
  {
    if ms[0].name != Observability {
      assert AddComponent(ms, d)[1..] == AddComponent(ms[1..], d);
      FirstAdded(ms[1..], d);
    }
  }

  lemma ModeAdded(cs: seq<Component>, d: Component, c: string)
    ensures ModeOf(cs + [d], c) == if d.name == c then Issued(d) else ModeOf(cs, c)
    ensures Switched(cs + [d], c) <==> Switched(cs, c) || (d.name == c && d.enabled)
  {
    assert (cs + [d])[..|cs|] == cs;
    if Switched(cs, c) {
      var i :| 0 <= i < |cs| && cs[i].name == c && cs[i].enabled;
      assert (cs + [d])[i] == cs[i];
    }
    if d.name == c && d.enabled { assert (cs + [d])[|cs|] == d; }
  }

  lemma AddRegular(x: Watch, s: Spec, d: Component)
    requires Regular(x, s) && IsModuleEnabled(s, Observability) && ModeFits(x, Issued(d), d.name)
    requires forall i :: 0 <= i < |FirstModule(s.modules, Observability).value.components| ==>
               FirstModule(s.modules, Observability).value.components[i].name != d.name
    ensures var s' := s.(modules := AddComponent(s.modules, d)); Regular(x, s') && IsModuleEnabled(s', Observability)
  {
    var s' := s.(modules := AddComponent(s.modules, d));
    assert SameShape(s.modules, s'.modules);
    ShapeDecides(s.modules, s'.modules, Replication);
    ShapeDecides(s.modules, s'.modules, Observability);
    FirstAdded(s.modules, d);
    var cs := FirstModule(s.modules, Observability).value.components;
    forall c | IsComponentEnabled(s', Observability, c) ensures ModeFits(x, ModeIn(s', c), c) {
      ModeAdded(cs, d, c);
      if c != d.name { assert IsComponentEnabled(s, Observability, c); }
    }
  }

  lemma {:induction false} DefaultsRegular(x: Watch, s: Spec, ds: seq<Component>)
    requires Regular(x, s) && IsModuleEnabled(s, Observability) && forall d :: d in ds ==> ModeFits(x, Issued(d), d.name)
    ensures Regular(x, s.(modules := AddDefaults(s.modules, ds)))
    decreases |ds|
  {
    if ds == [] {
      assert s.(modules := s.modules) == s;
    } else {
      var first := FirstModule(s.modules, Observability);
      assert ds[0] in ds;
      if exists i :: 0 <= i < |first.value.components| && first.value.components[i].name == ds[0].name {
        DefaultsRegular(x, s, ds[1..]);
      } else {
        AddRegular(x, s, ds[0]);
        DefaultsRegular(x, s.(modules := AddComponent(s.modules, ds[0])), ds[1..]);
      }
    }
  }

  lemma {:induction false} SetAuthElsewhere(ms: seq<Module>, v: string)
    ensures FirstModule(SetAuthVersion(ms, v), Observability) == FirstModule(ms, Observability)
    ensures EnabledModule(SetAuthVersion(ms, v), Observability) == EnabledModule(ms, Observability)
    ensures FirstModule(SetAuthVersion(ms, v), Replication) == FirstModule(ms, Replication)
    ensures EnabledModule(SetAuthVersion(ms, v), Replication) == EnabledModule(ms, Replication)
  {
    if ms != [] && ms[0].name != AuthorizationServer { SetAuthElsewhere(ms[1..], v); }
  }

  lemma PrepareRegular(x: Watch, s: Spec)
    requires Regular(x, s) && DefaultsAgree(x) && Prepare(x.t, s).Ok?
    ensures var p := Prepare(x.t, s).value; Regular(x, p) && p.driver == s.driver && (Forced(s) <==> Forced(p))
  {
    var forced := s.(force := if s.force.None? then Some(true) else s.force);
    var full := if IsModuleEnabled(s, Observability) && x.t.defaults.Some?
                then forced.(modules := AddDefaults(s.modules, x.t.defaults.value)) else forced;
    assert Regular(x, forced) by { SameModules(x, s, forced); }
    if IsModuleEnabled(s, Observability) && x.t.defaults.Some? { DefaultsRegular(x, forced, x.t.defaults.value); }
    var p := Prepare(x.t, s).value;
    if HasModule(full, AuthorizationServer) {
      SetAuthElsewhere(full.modules, GetVersion(x.t, full).value);
      SameLookups(x, full, p);
    }
  }

  lemma SameModules(x: Watch, s: Spec, s': Spec)
    requires Regular(x, s) && s'.modules == s.modules
    ensures Regular(x, s')
  {
    SameLookups(x, s, s');
  }

  lemma SameLookups(x: Watch, s: Spec, s': Spec)
    requires Regular(x, s)
    requires FirstModule(s'.modules, Observability) == FirstModule(s.modules, Observability)
    requires EnabledModule(s'.modules, Observability) == EnabledModule(s.modules, Observability)
    requires FirstModule(s'.modules, Replication) == FirstModule(s.modules, Replication)
    requires EnabledModule(s'.modules, Replication) == EnabledModule(s.modules, Replication)
    ensures Regular(x, s')
  {
    forall c | IsComponentEnabled(s', Observability, c) ensures ModeFits(x, ModeIn(s', c), c) {
      assert IsComponentEnabled(s, Observability, c);
    }
  }

  // An object that is no certificate agrees with every spec.
  lemma Modeless(x: Watch)
    requires forall c, mode :: x.key !in CertificateKeys(x.t, mode, c)
    ensures (forall s :: Agrees(x, s)) && DefaultsAgree(x)
  {
  }

  // A spec that issues every certificate as watched, or gives one half, agrees for every object.
  lemma FixedModes(x: Watch, s: Spec)
    requires forall c :: IsComponentEnabled(s, Observability, c) ==> ModeIn(s, c).Half? || ModeIn(s, c) == x.modes(c)
    ensures Agrees(x, s)
  {
  }

  // ---------- one reconcile ----------

  lemma InstallKeeps(x: Watch, sc: Script, base: Stored, local: Stored, w: World)
    requires WellFormed(x) && Disciplined(x, sc) && Good(x, sc, w) && Copy(x, base, local, w) && !base.deleting
    ensures Good(x, sc, Install(x.t, sc, local, w))
  {
    var fin := if local.finalizer then Wrote(w, None) else Update(sc, w, local.(finalizer := true));
    GoodAdvance(x, sc, w);
    if !local.finalizer { UpdateLands(sc, w, base, local.(finalizer := true)); }
    assert Good(x, sc, fin.world);
    if fin.error.None? {
      var l1, b1 := if local.finalizer then local else fin.world.cr, if local.finalizer then base else fin.world.cr;
      assert Copy(x, b1, l1, fin.world);
      ConfigKeeps(x, sc, b1, l1, fin.world);
    }
  }

  lemma ConfigKeeps(x: Watch, sc: Script, base: Stored, local: Stored, w: World)
    requires WellFormed(x) && Disciplined(x, sc) && Good(x, sc, w) && Copy(x, base, local, w) && !base.deleting && base.finalizer
    ensures var v := NewConfig(x.t, local);
            var conf := if v.None? then Wrote(w, None) else Update(sc, w, local.(config := v));
            Good(x, sc, conf.world) &&
            (conf.error.None? ==> Good(x, sc, Sync(x.t, sc, if v.None? then local else conf.world.cr, conf.world).world))
  {
    var v := NewConfig(x.t, local);
    GoodAdvance(x, sc, w);
    if v.Some? { UpdateLands(sc, w, base, local.(config := v)); }
    var conf := if v.None? then Wrote(w, None) else Update(sc, w, local.(config := v));
    if conf.error.None? {
      var l2, b2 := if v.None? then local else conf.world.cr, if v.None? then base else conf.world.cr;
      SyncKeeps(x, sc, b2, l2, conf.world);
    }
  }

  // ---------- removal ----------

  // What a removal may touch at the object.
  lemma RemovalTouches(x: Watch, s: Spec)
    requires Regular(x, s)
    ensures !PutsOn(RemoveOps(x.t, s), x.key)
    ensures RemovesOn(RemoveOps(x.t, s), x.key) ==> OfDriver(x.t, x.key) || Owned(x, s)
    ensures Sweep(x.key) in RemoveOps(x.t, s) ==> OfDriver(x.t, x.key) || Swept(x.t, x.key)
  {
    var ops := RemoveOps(x.t, s);
    forall i | 0 <= i < |ops| && !Idle(ops[i])
      ensures Removes(ops[i])
      ensures ops[i].key == x.key ==> OfDriver(x.t, x.key) || (Owned(x, s) && (ops[i].Sweep? ==> Swept(x.t, x.key)))
    {
      RemoveOnly(x, s, ops[i]);
    }
  }

  // A forced removal that ran through took away the driver and everything the spec owns,
  // except workloads it was blind to, and nothing else.
  lemma RemovalClears(x: Watch, sc: Script, s: Spec, w: World)
    requires WellFormed(x) && Regular(x, s) && s.driver != "" && RunAll(sc, RemoveOps(x.t, s), w).ok
    ensures var m := RunAll(sc, RemoveOps(x.t, s), w).world.objects;
            && (Owned(x, s) && (Sighted(sc, w.clock) || !Swept(x.t, x.key)) ==> x.key !in m)
            && (OfDriver(x.t, x.key) && Sighted(sc, w.clock) ==> x.key !in m)
            && (x.key in m ==> x.key in w.objects)
            && (x.key in w.objects && !OfDriver(x.t, x.key) && !Owned(x, s) ==> x.key in m)
  {
    var ops := RemoveOps(x.t, s);
    RemovalTouches(x, s);
    RunSucceeds(sc, ops, w, x.key);
    RunKeys(sc, ops, w, x.key);
    RemoveReaches(x, s);
    assert Owned(x, s) ==> Managed(x);
  }

  lemma TeardownKeeps(x: Watch, sc: Script, base: Stored, local: Stored, w: World)
    requires WellFormed(x) && Disciplined(x, sc) && Good(x, sc, w) && Copy(x, base, local, w) && base.finalizer && base.deleting
    ensures Good(x, sc, Teardown(x.t, sc, local, w))
  {
    var ops := RemoveOps(x.t, local.spec);
    var d := if Forced(local.spec) then RunAll(sc, ops, w) else Done(w, true);
    if Forced(local.spec) {
      RemovalTouches(x, local.spec);
      GoodRun(x, sc, ops, w);
      RunDrift(sc, ops, w);
      DriftTransitive(base, w.cr, d.world.cr);
    }
    if d.ok {
      if Forced(local.spec) && local.spec.driver != "" { RemovalClears(x, sc, local.spec, w); }
      UpdateLands(sc, d.world, base, local.(finalizer := false));
      GoodAdvance(x, sc, d.world);
    }
  }

  lemma PreChecksDrift(t: Templates, sc: Script, local: Stored, w: World)
    ensures var d := PreChecks(t, sc, local, w);
            && Drift(w.cr, d.world.cr) && d.world.objects == w.objects && d.world.history == w.history
            && (d.world == w || d.world == Advance(sc, w) || d.world == Advance(sc, Advance(sc, w)))
  {
    var w1 := Advance(sc, w);
    AdvanceDrift(sc, w);
    AdvanceDrift(sc, w1);
    DriftTransitive(w.cr, w1.cr, Advance(sc, w1).cr);
  }

  lemma PreChecksGood(x: Watch, sc: Script, local: Stored, w: World)
    requires Disciplined(x, sc) && Good(x, sc, w)
    ensures Good(x, sc, PreChecks(x.t, sc, local, w).world)
  {
    PreChecksDrift(x.t, sc, local, w);
    GoodAdvance(x, sc, w);
    GoodAdvance(x, sc, Advance(sc, w));
  }

  lemma ReconcileKeeps(x: Watch, sc: Script, w: World)
    requires WellFormed(x) && DefaultsAgree(x) && Disciplined(x, sc) && Good(x, sc, w)
    ensures Good(x, sc, Reconcile(x.t, sc, w))
  {
    var w0 := Advance(sc, w);
    GoodAdvance(x, sc, w);
    if At(sc, w.clock).fault.Clear? && !w0.cr.gone && Prepare(x.t, w0.cr.spec).Ok? {
      PrepareRegular(x, w0.cr.spec);
      var local := w0.cr.(spec := Prepare(x.t, w0.cr.spec).value);
      PreChecksDrift(x.t, sc, local, w0);
      PreChecksGood(x, sc, local, w0);
      var d := PreChecks(x.t, sc, local, w0);
      if !d.ok {
        GoodAdvance(x, sc, d.world);
      } else if local.deleting {
        TeardownKeeps(x, sc, w0.cr, local, d.world);
      } else {
        InstallKeeps(x, sc, w0.cr, local, d.world);
      }
    }
  }

  // ---------- whole runs ----------

  ghost predicate DisciplinedEvents(x: Watch, es: seq<Event>) {
    forall i :: 0 <= i < |es| && es[i].User? ==> RegularAction(x, es[i].action)
  }

  // A resource nothing was done for yet.
  ghost predicate Unserved(w: World) {
    && !w.cr.gone && !w.cr.deleting && !w.cr.finalizer
    && w.cr.previous.None? && w.cr.config.None? && w.history == []
  }

  ghost predicate Fresh(x: Watch, w: World) {
    Unserved(w) && Regular(x, w.cr.spec) && !(x.key in w.objects && Tracked(x))
  }

  // The whole situation of a run: what the templates are, what the user writes, where it starts.
  ghost predicate Setting(x: Watch, sc: Script, es: seq<Event>, w: World) {
    WellFormed(x) && DefaultsAgree(x) && Disciplined(x, sc) && DisciplinedEvents(x, es) && Fresh(x, w)
  }

  lemma {:induction false} HistoryKeeps(x: Watch, sc: Script, es: seq<Event>, w: World)
    requires WellFormed(x) && DefaultsAgree(x) && Disciplined(x, sc) && DisciplinedEvents(x, es) && Good(x, sc, w)
    ensures Good(x, sc, History(x.t, sc, es, w))
    decreases |es|
  {
    if es != [] {
      match es[0] {
        case User(a) => GoodAct(x, sc, w, a);
        case Reconciles => ReconcileKeeps(x, sc, w);
      }
      HistoryKeeps(x, sc, es[1..], Occurs(x.t, sc, es[0], w));
    }
  }

  // In every run, whatever fails and whatever the user edits, a module object in the cluster
  // is enabled in the recorded spec while the resource lives, unless it is a metrics
  // Deployment that could not be read.
  lemma NoOrphanInAnyRun(x: Watch, sc: Script, es: seq<Event>, w: World)
    requires Setting(x, sc, es, w) && Firm(x, sc)
    ensures var v := History(x.t, sc, es, w);
            !v.cr.gone && x.key in v.objects && Managed(x) ==> v.cr.previous.Some? && Owned(x, v.cr.previous.value)
  {
    HistoryKeeps(x, sc, es, w);
  }

  // In every run, once a resource with forced removal is gone, no driver object is left, as
  // long as no read of a workload failed with anything but NotFound; and of the modules only
  // objects are left that the last recorded spec enabled and the last stored spec did not.
  lemma ForcedRemovalInAnyRun(x: Watch, sc: Script, es: seq<Event>, w: World)
    requires Setting(x, sc, es, w)
    ensures var v := History(x.t, sc, es, w);
            v.cr.gone && Forced(v.cr.spec) && v.cr.spec.driver != "" && x.key in v.objects ==>
              && (Sighted(sc, 0) ==> !OfDriver(x.t, x.key))
              && (Managed(x) && Firm(x, sc) ==>
                    v.cr.previous.Some? && Owned(x, v.cr.previous.value) && !Owned(x, v.cr.spec))
  {
    HistoryKeeps(x, sc, es, w);
  }
}
