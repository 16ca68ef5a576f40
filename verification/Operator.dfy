// The reconciler as it is written: methods that change the cluster and the resource call by
// call and return early on errors, each proved to do what Lifecycle says.
module Operator {
  import opened Resource
  import opened Cluster
  import opened Api
  import opened Versions
  import opened Lifecycle

  class Reconciler {
    const t: Templates
    const script: Script
    var world: World

    constructor (t: Templates, script: Script, world: World)
      ensures this.t == t && this.script == script && this.world == world
    {
      this.t := t;
      this.script := script;
      this.world := world;
    }

    // ---------- client calls ----------

    method Get(k: Key) returns (r: Reply)
      modifies this
      ensures world == Advance(script, old(world)) && r == Read(script, old(world), k)
    {
      r := Read(script, world, k);
      world := Advance(script, world);
    }

    // Create, Update, Apply or Delete, given the cluster it asks for.
    method Submit(m: Objects) returns (e: Option<Error>)
      modifies this
      ensures Wrote(world, e) == Write(script, old(world), m)
    {
      var wr := Write(script, world, m);
      world := wr.world;
      e := wr.error;
    }

    method UpdateResource(local: Stored) returns (e: Option<Error>)
      modifies this
      ensures Wrote(world, e) == Update(script, old(world), local)
    {
      var fault := At(script, world.clock).fault;
      world := Advance(script, world);
      if fault.Refused? { return Some(fault.why); }
      if world.cr.gone || world.cr.revision != local.revision { return Some(Conflict); }
      if local.config != world.cr.config {
        world := world.(history := world.history + [Hop(local.spec, world.cr.config, local.config)]);
      }
      // the last finalizer lets a resource marked for deletion go
      var gone := world.cr.deleting && !local.finalizer;
      world := world.(cr := local.(deleting := world.cr.deleting, revision := world.cr.revision + 1, gone := gone));
      return if fault.Lost? then Some(Unavailable) else None;
    }

    // A step that only reads or computes and may fail.
    method Pass() returns (ok: bool)
      modifies this
      ensures Done(world, ok) == Run(script, Gate, old(world))
    {
      ok := At(script, world.clock).fault.Clear?;
      world := Advance(script, world);
    }

    // ---------- sync helpers ----------

    method SyncServiceAccount(k: Key, b: Body) returns (ok: bool)
      modifies this
      ensures Done(world, ok) == Run(script, Put(CreateOnly, k, b), old(world))
    {
      var found := Get(k);
      if found == Missing {
        var e := Submit(world.objects[k := b]);
        return e.None?;
      }
      return found == Found;
    }

    method SyncRole(k: Key, b: Body) returns (ok: bool)
      modifies this
      ensures Done(world, ok) == Run(script, Put(Verified, k, b), old(world))
    {
      var found := Get(k);
      if found == Failed { return false; }
      var e := Submit(world.objects[k := b]);
      if e.Some? { return false; }
      if found == Missing {
        var again := Get(k);
        return again == Found;
      }
      return true;
    }

    method SyncObject(k: Key, b: Body) returns (ok: bool)
      modifies this
      ensures Done(world, ok) == Run(script, Put(Plain, k, b), old(world))
    {
      var found := Get(k);
      if found == Failed { return false; }
      var e := Submit(world.objects[k := b]);
      return e.None?;
    }

    function Merged(k: Key, b: Body): Objects
      reads this
    {
      world.objects[k := if k in world.objects then world.objects[k] + b else b]
    }

    method SyncDeployment(k: Key, b: Body) returns (ok: bool)
      modifies this
      ensures Done(world, ok) == Run(script, Put(DeployApply, k, b), old(world))
    {
      var found := Get(k);
      var e := Submit(Merged(k, b));
      return e.None?;
    }

    method SyncDaemonset(k: Key, b: Body) returns (ok: bool)
      modifies this
      ensures Done(world, ok) == Run(script, Put(DaemonApply, k, b), old(world))
    {
      var found := Get(k);
      if found == Failed { return false; }
      var e := Submit(Merged(k, b));
      return e.None?;
    }

    method ApplyObject(k: Key, b: Body) returns (ok: bool)
      modifies this
      ensures Done(world, ok) == Run(script, Put(Lenient, k, b), old(world))
    {
      var found := Get(k);
      if found == Missing {
        var e := Submit(world.objects[k := b]);
        return e.None?;
      } else if found == Failed {
        return false;
      }
      var e := Submit(Merged(k, b));
      return e.None? || e.value.Forbidden? || e.value.Invalid?;
    }

    method DeleteObject(k: Key) returns (ok: bool)
      modifies this
      ensures Done(world, ok) == Run(script, Drop(k), old(world))
    {
      var found := Get(k);
      if found == Missing {
        return true;
      } else if found == Failed {
        return false;
      }
      var e := Submit(world.objects - {k});
      return e.None?;
    }

    // The daemonset and deployment step of removeDriverFromCluster.
    method DeleteWorkload(k: Key) returns (ok: bool)
      modifies this
      ensures Done(world, ok) == Run(script, Sweep(k), old(world))
    {
      var unread := At(script, world.clock).blind || k !in world.objects;
      world := Advance(script, world);
      if unread { return true; }
      var e := Submit(world.objects - {k});
      return e.None?;
    }

    method Sync1(x: Slot, b: Body) returns (ok: bool)
      modifies this
      ensures Done(world, ok) == Run(script, Put(x.style, x.key, b), old(world))
    {
      match x.style
      case CreateOnly => ok := SyncServiceAccount(x.key, b);
      case Verified => ok := SyncRole(x.key, b);
      case Plain => ok := SyncObject(x.key, b);
      case DaemonApply => ok := SyncDaemonset(x.key, b);
      case DeployApply => ok := SyncDeployment(x.key, b);
      case Lenient => ok := ApplyObject(x.key, b);
    }

    method SyncEach(s: Spec, slots: seq<Slot>) returns (ok: bool)
      modifies this
      ensures Done(world, ok) == RunAll(script, PutAll(t, s, slots), old(world))
    {
      ghost var ops := PutAll(t, s, slots);
      for i := 0 to |slots|
        invariant RunAll(script, ops[i..], world) == RunAll(script, ops, old(world))
      {
        assert ops[i..][0] == ops[i] && ops[i..][1..] == ops[i + 1..];
        ok := Sync1(slots[i], t.render(s, slots[i].key));
        if !ok { return false; }
      }
      ok := true;
    }

    method DeleteEach(ks: seq<Key>) returns (ok: bool)
      modifies this
      ensures Done(world, ok) == RunAll(script, DropAll(ks), old(world))
    {
      ghost var ops := DropAll(ks);
      for i := 0 to |ks|
        invariant RunAll(script, ops[i..], world) == RunAll(script, ops, old(world))
      {
        assert ops[i..][0] == ops[i] && ops[i..][1..] == ops[i + 1..];
        ok := DeleteObject(ks[i]);
        if !ok { return false; }
      }
      ok := true;
    }

    // Deletion of a component's objects, the Deployment of a metrics component as a workload.
    method ClearEach(slots: seq<Slot>) returns (ok: bool)
      modifies this
      ensures Done(world, ok) == RunAll(script, ClearAll(slots), old(world))
    {
      ghost var ops := ClearAll(slots);
      for i := 0 to |slots|
        invariant RunAll(script, ops[i..], world) == RunAll(script, ops, old(world))
      {
        assert ops[i..][0] == ops[i] && ops[i..][1..] == ops[i + 1..];
        if slots[i].style.DeployApply? {
          ok := DeleteWorkload(slots[i].key);
        } else {
          ok := DeleteObject(slots[i].key);
        }
        if !ok { return false; }
      }
      ok := true;
    }

    // ---------- modules ----------

    // The images ConfigMap, when the spec names a version.
    method ReadImages(s: Spec) returns (ok: bool)
      modifies this
      ensures Done(world, ok) == RunAll(script, Lookup(s), old(world))
    {
      ok := true;
      if s.version != "" {
        assert [Gate][1..] == [];
        ok := Pass();
      }
    }

    method ReplicationManagerController(deleting: bool, s: Spec) returns (ok: bool)
      modifies this
      ensures Done(world, ok) == RunAll(script, ReplicationOps(t, deleting, s), old(world))
    {
      var m := FirstModule(s.modules, Replication);
      var unread := m.None? || (m.value.configVersion == "" && GetVersion(t, s).Err?);
      RunAllConcat(script, Lookup(s), if unread then [Abort] else Rewrite(t, deleting, s, Slots(Lenient, t.replication)), world);
      ok := ReadImages(s);
      if !ok || unread { return false; }
      ok := ReconcileSlots(deleting, s, Slots(Lenient, t.replication));
    }

    method ReconcileSlots(deleting: bool, s: Spec, slots: seq<Slot>) returns (ok: bool)
      modifies this
      ensures Done(world, ok) == RunAll(script, Rewrite(t, deleting, s, slots), old(world))
    {
      if deleting {
        ok := ClearEach(slots);
      } else {
        ok := SyncEach(s, slots);
      }
    }

    method ReconcileComponents(deleting: bool, s: Spec, cs: seq<string>) returns (ok: bool)
      modifies this
      ensures Done(world, ok) == RunAll(script, ComponentOps(t, deleting, s, cs), old(world))
    {
      for i := 0 to |cs|
        invariant RunAll(script, ComponentOps(t, deleting, s, cs[i..]), world) == RunAll(script, ComponentOps(t, deleting, s, cs), old(world))
      {
        assert cs[i..][0] == cs[i] && cs[i..][1..] == cs[i + 1..];
        if !Supported(cs[i]) { return false; }
        ghost var a := if Metrics(cs[i]) then Lookup(s) else [];
        ghost var b := Rewrite(t, deleting, s, ComponentSlots(t, cs[i]));
        RunAllConcat(script, a + b, ComponentOps(t, deleting, s, cs[i + 1..]), world);
        RunAllConcat(script, a, b, world);
        if Metrics(cs[i]) {
          ok := ReadImages(s);
          if !ok { return false; }
        }
        ok := ReconcileSlots(deleting, s, ComponentSlots(t, cs[i]));
        if !ok { return false; }
      }
      ok := true;
    }

    // The Issuer and Certificate of one component, with a Secret if it brings its own.
    method IssueCertificate(deleting: bool, s: Spec, all: seq<Component>, c: Component) returns (ok: bool)
      modifies this
      ensures Done(world, ok) == RunAll(script, CertificateOp(t, deleting, s, all, c), old(world))
    {
      if !c.enabled || !Certified(c.name) { return true; }
      var mode := ModeOf(all, c.name);
      if mode == Half { return false; }
      ok := ReconcileSlots(deleting, s, Slots(Lenient, CertificateKeys(t, mode, c.name)));
    }

    // IssuerCertServiceObs over the components of the first observability entry.
    method IssuerCertService(deleting: bool, s: Spec, cs: seq<Component>) returns (ok: bool)
      modifies this
      ensures Done(world, ok) == RunAll(script, CertificateOps(t, deleting, s, cs, cs), old(world))
    {
      for i := 0 to |cs|
        invariant RunAll(script, CertificateOps(t, deleting, s, cs, cs[i..]), world) ==
                  RunAll(script, CertificateOps(t, deleting, s, cs, cs), old(world))
      {
        assert cs[i..][0] == cs[i] && cs[i..][1..] == cs[i + 1..];
        RunAllConcat(script, CertificateOp(t, deleting, s, cs, cs[i]), CertificateOps(t, deleting, s, cs, cs[i + 1..]), world);
        ok := IssueCertificate(deleting, s, cs, cs[i]);
        if !ok { return false; }
      }
      ok := true;
    }

    // The enabled components of s, or those that now no longer enables.
    method Collect(s: Spec, now: Option<Spec>, cs: seq<Component>) returns (r: seq<string>)
      ensures r == Retired(s, now, cs)
    {
      r := [];
      for i := 0 to |cs|
        invariant r + Retired(s, now, cs[i..]) == Retired(s, now, cs)
      {
        assert cs[i..][0] == cs[i] && cs[i..][1..] == cs[i + 1..];
        ghost var rest := Retired(s, now, cs[i + 1..]);
        if Lapsed(s, now, cs[i].name) {
          assert r + ([cs[i].name] + rest) == (r + [cs[i].name]) + rest;
          r := r + [cs[i].name];
        } else {
          assert [] + rest == rest;
        }
      }
    }

    method ReconcileObservability(deleting: bool, s: Spec, components: seq<string>) returns (ok: bool)
      modifies this
      ensures Done(world, ok) == RunAll(script, ObservabilityOps(t, deleting, s, components), old(world))
    {
      if GetVersion(t, s).Err? { return false; }
      var m := EnabledModule(s.modules, Observability);
      var cs := components;
      if components == [] && m.Some? {
        cs := Collect(s, None, m.value.components);
      }
      ghost var a := ComponentOps(t, deleting, s, cs);
      ghost var b := if !deleting && IsComponentEnabled(s, Observability, CertManager) then [Gate] else [];
      var first := FirstModule(s.modules, Observability);
      ghost var c := if first.None? then [Abort] else CertificateOps(t, deleting, s, first.value.components, first.value.components);
      RunAllConcat(script, a + b, c, world);
      RunAllConcat(script, a, b, world);
      ok := ReconcileComponents(deleting, s, cs);
      if !ok { return false; }
      if !deleting && IsComponentEnabled(s, Observability, CertManager) {
        ok := Pass();
        if !ok { return false; }
      }
      if first.None? { return false; }
      ok := IssuerCertService(deleting, s, first.value.components);
    }

    // ---------- sync ----------

    method OldStandAloneModuleCleanup(local: Stored) returns (ok: bool)
      modifies this
      ensures var d := RunAll(script, if local.previous.Some? then CleanupOps(t, local.previous.value, local.spec) else [], old(world));
              var rec := Update(script, d.world, local.(previous := Some(local.spec)));
              Done(world, ok) == if !d.ok then d else Done(rec.world, rec.error.None?)
    {
      if local.previous.Some? {
        var was, now := local.previous.value, local.spec;
        var m := EnabledModule(was.modules, Observability);
        var here := IsModuleEnabled(now, Observability);
        var components := [];
        if m.Some? && here {
          components := Collect(was, Some(now), m.value.components);
        }
        ghost var a := if ReplicaEnabled(was) && !ReplicaEnabled(now) then ReplicationOps(t, true, was) else [];
        ghost var b := if (m.Some? && !here) || components != [] then ObservabilityOps(t, true, was, components) else [];
        assert CleanupOps(t, was, now) == a + b;
        RunAllConcat(script, a, b, world);
        if ReplicaEnabled(was) && !ReplicaEnabled(now) {
          ok := ReplicationManagerController(true, was);
          if !ok { return false; }
        }
        if (m.Some? && !here) || components != [] {
          ok := ReconcileObservability(true, was, components);
          if !ok { return false; }
        }
      }
      var e := UpdateResource(local.(previous := Some(local.spec)));
      return e.None?;
    }

    method Deploy(s: Spec) returns (ok: bool)
      modifies this
      ensures Done(world, ok) == RunAll(script, DeployOps(t, s), old(world))
    {
      ghost var a := PutAll(t, s, DriverSlots(t.driver));
      ghost var b := if t.driver.Cosi? then [] else ModuleOps(t, s);
      RunAllConcat(script, [Gate] + a, b, world);
      RunAllConcat(script, [Gate], a, world);
      assert [Gate][1..] == [];
      ok := Pass();
      if !ok { return false; }
      ok := SyncEach(s, DriverSlots(t.driver));
      if !ok || t.driver.Cosi? { return; }
      ok := DeployModules(s);
    }

    method DeployModules(s: Spec) returns (ok: bool)
      modifies this
      ensures Done(world, ok) == RunAll(script, ModuleOps(t, s), old(world))
    {
      ghost var a := if IsModuleEnabled(s, Replication) then ReplicationOps(t, false, s) else [];
      ghost var b := if IsModuleEnabled(s, Observability) then ObservabilityOps(t, false, s, []) else [];
      RunAllConcat(script, a, b, world);
      ok := true;
      if IsModuleEnabled(s, Replication) {
        ok := ReplicationManagerController(false, s);
        if !ok { return false; }
      }
      if IsModuleEnabled(s, Observability) {
        ok := ReconcileObservability(false, s, []);
      }
    }

    method SyncCSM(local: Stored) returns (ok: bool)
      modifies this
      ensures Done(world, ok) == Sync(t, script, local, old(world))
    {
      if IsModuleEnabled(local.spec, AuthorizationServer) {
        ok := Pass();
        return;
      }
      ghost var a := if local.spec.version != "" then [Gate] else [];
      ghost var b := if IsModuleEnabled(local.spec, Replication) then PutAll(t, local.spec, Slots(Lenient, t.crds)) else [];
      RunAllConcat(script, a + b, [Gate], world);
      RunAllConcat(script, a, b, world);
      if local.spec.version != "" {
        ok := Pass();
        if !ok { return; }
      }
      if IsModuleEnabled(local.spec, Replication) {
        ok := SyncEach(local.spec, Slots(Lenient, t.crds));
        if !ok { return; }
      }
      ok := Pass();
      if !ok || local.spec.driver == "" { return; }
      ok := OldStandAloneModuleCleanup(local);
      if !ok { return; }
      ok := Deploy(local.spec);
    }

    // ---------- removal ----------

    method RemoveDriverFromCluster() returns (ok: bool)
      modifies this
      ensures Done(world, ok) == RunAll(script, DriverRemovals(t.driver), old(world))
    {
      match t.driver
      case Csi(n, c, cm, csi, ds, dp) =>
        var ks := RbacKeys(n) + RbacKeys(c) + [cm, csi];
        RunAllConcat(script, DropAll(ks), [Sweep(ds), Sweep(dp)], world);
        assert [Sweep(ds), Sweep(dp)][1..] == [Sweep(dp)] && [Sweep(dp)][1..] == [];
        ok := DeleteEach(ks);
        if !ok { return; }
        ghost var w1 := world;
        ok := DeleteWorkload(ds);
        if !ok { return; }
        assert RunAll(script, [Sweep(ds), Sweep(dp)], w1) == RunAll(script, [Sweep(dp)], world);
        ok := DeleteWorkload(dp);
      case Cosi(c, cm, dp) =>
        RunAllConcat(script, DropAll(RbacKeys(c) + [cm]), [Sweep(dp)], world);
        assert [Sweep(dp)][1..] == [];
        ok := DeleteEach(RbacKeys(c) + [cm]);
        if !ok { return; }
        ok := DeleteWorkload(dp);
    }

    method RemoveDriver(s: Spec) returns (ok: bool)
      modifies this
      ensures Done(world, ok) == RunAll(script, RemoveOps(t, s), old(world))
    {
      ghost var a := if IsModuleEnabled(s, Replication) then ReplicationOps(t, true, s) else [];
      ghost var b := if IsModuleEnabled(s, Observability) then ObservabilityOps(t, true, s, []) else [];
      RunAllConcat(script, [Gate] + DriverRemovals(t.driver), ModuleRemovals(t, s), world);
      RunAllConcat(script, [Gate], DriverRemovals(t.driver), world);
      ok := Pass();
      if !ok || s.driver == "" { return; }
      ok := RemoveDriverFromCluster();
      if !ok { return; }
      RunAllConcat(script, a, b, world);
      if IsModuleEnabled(s, Replication) {
        ok := ReplicationManagerController(true, s);
        if !ok { return; }
      }
      if IsModuleEnabled(s, Observability) {
        ok := ReconcileObservability(true, s, []);
      }
    }

    // ---------- reconcile ----------

    method CheckUpgradePath(local: Stored) returns (v: Verdict)
      ensures v == CheckUpgrade(t, local)
    {
      if local.config.None? { return Proceed; }
      if HasModule(local.spec, AuthorizationServer) {
        var now := Ok(AuthVersion(local.spec));
        if local.spec.version != "" {
          now := GetVersion(t, local.spec);
          if now.Err? { return Reject; }
        }
        if MajorSwitch(local.config.value, now.value) { return Skip; }
        return if ValidHop(PathsOf(t, "authorization"), local.config.value, now.value) then Proceed else Reject;
      }
      var now := GetVersion(t, local.spec);
      if now.Err? { return Reject; }
      return if ValidHop(PathsOf(t, Directory(local.spec.driver)), local.config.value, now.value) then Proceed else Reject;
    }

    method RunPreChecks(local: Stored) returns (ok: bool)
      modifies this
      ensures Done(world, ok) == PreChecks(t, script, local, old(world))
    {
      if KnownDriver(local.spec.driver) {
        ok := Pass();
        if !ok { return; }
      } else if !HasModule(local.spec, AuthorizationServer) {
        return false;
      }
      var v := CheckUpgradePath(local);
      if v == Reject { return false; }
      if v == Skip { return true; }
      ok := Pass();
    }

    method ReconcileOnce()
      modifies this
      ensures world == Reconcile(t, script, old(world))
    {
      var read := At(script, world.clock).fault.Clear?;
      world := Advance(script, world);
      if !read || world.cr.gone { return; }
      var s := Prepare(t, world.cr.spec);
      if s.Err? { return; }
      var local := world.cr.(spec := s.value);
      var ok := RunPreChecks(local);
      if !ok {
        world := Advance(script, world);
        return;
      }
      if local.deleting {
        if Forced(local.spec) {
          ok := RemoveDriver(local.spec);
          if !ok { return; }
        }
        if local.finalizer {
          var _ := UpdateResource(local.(finalizer := false));
        }
        return;
      }
      if !local.finalizer {
        var e := UpdateResource(local.(finalizer := true));
        if e.Some? { return; }
        local := world.cr;
      }
      var v := NewConfig(t, local);
      if v.Some? {
        var e := UpdateResource(local.(config := v));
        if e.Some? { return; }
        local := world.cr;
      }
      var _ := SyncCSM(local);
    }

    // The manager's loop over a whole run.
    method Serve(es: seq<Event>)
      modifies this
      ensures world == History(t, script, es, old(world))
    {
      for i := 0 to |es|
        invariant History(t, script, es[i..], world) == History(t, script, es, old(world))
      {
        assert es[i..][0] == es[i] && es[i..][1..] == es[i + 1..];
        match es[i]
        case User(a) => world := world.(cr := Acts(world.cr, a));
        case Reconciles => ReconcileOnce();
      }
    }
  }
}
