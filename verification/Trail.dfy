// The config versions the operator records form a path of the upgrade graph.
module Trail {
  import opened Resource
  import opened Cluster
  import opened Api
  import opened Versions
  import opened Lifecycle
  import opened Operations
  import opened Safety

  // A recorded change is a first record, or a hop the upgrade graph of its component allows;
  // with the authorization proxy server it may also be a switch between v1 and v2.
  ghost predicate Lawful(t: Templates, h: Hop) {
    h.from.Some? ==>
      && h.to.Some?
      && if HasModule(h.spec, AuthorizationServer)
         then Switches(h.from.value, h.to.value) || Reaches(PathsOf(t, "authorization"), h.from.value, h.to.value)
         else Reaches(PathsOf(t, if h.spec.driver == "isilon" then "powerscale" else h.spec.driver), h.from.value, h.to.value)
  }

  // From a v1 to a v2 version or back.
  ghost predicate Switches(from: string, to: string) {
    ("v1." <= from && "v2." <= to) || ("v2." <= from && "v1." <= to)
  }

  // The changes chain: each starts where the one before ended, the last ends at what is stored.
  ghost predicate Chained(hs: seq<Hop>, stored: Option<string>) {
    && (hs == [] ==> stored.None?)
    && (hs != [] ==> hs[0].from.None? && hs[|hs| - 1].to == stored)
    && forall i :: 0 < i < |hs| ==> hs[i - 1].to == hs[i].from
  }

  ghost predicate Trailed(t: Templates, w: World) {
    Chained(w.history, w.cr.config) && forall i :: 0 <= i < |w.history| ==> Lawful(t, w.history[i])
  }

  lemma TrailedRun(t: Templates, sc: Script, ops: seq<Op>, w: World)
    requires Trailed(t, w)
    ensures Trailed(t, RunAll(sc, ops, w).world)
  {
    RunDrift(sc, ops, w);
  }

  // An update that keeps the version, or moves it lawfully, keeps the trail.
  lemma TrailedUpdate(t: Templates, sc: Script, base: Stored, local: Stored, w: World)
    requires Trailed(t, w) && !base.gone && Drift(base, w.cr) && local.revision == base.revision
    requires local.config != base.config ==> Lawful(t, Hop(local.spec, base.config, local.config))
    ensures Trailed(t, Update(sc, w, local).world)
  {
    UpdateLands(sc, w, base, local);
  }

  lemma TrailedSync(t: Templates, sc: Script, base: Stored, local: Stored, w: World)
    requires Trailed(t, w) && !base.gone && Drift(base, w.cr) && local == base.(spec := local.spec)
    ensures Trailed(t, Sync(t, sc, local, w).world)
  {
    if IsModuleEnabled(local.spec, AuthorizationServer) {
      StepDrift(sc, Gate, w);
    } else {
      var e := EarlyOps(t, local.spec);
      var w1 := RunAll(sc, e, w).world;
      RunDrift(sc, e, w);
      DriftTransitive(base, w.cr, w1.cr);
      TrailedRun(t, sc, e, w);
      var c := if local.previous.Some? then CleanupOps(t, local.previous.value, local.spec) else [];
      var w2 := RunAll(sc, c, w1).world;
      RunDrift(sc, c, w1);
      DriftTransitive(base, w1.cr, w2.cr);
      TrailedRun(t, sc, c, w1);
      var local' := local.(previous := Some(local.spec));
      TrailedUpdate(t, sc, base, local', w2);
      TrailedRun(t, sc, DeployOps(t, local.spec), Update(sc, w2, local').world);
    }
  }

  // The version of the authorization proxy server is the one the spec stands for.
  ghost predicate Settled(t: Templates, s: Spec) {
    HasModule(s, AuthorizationServer) ==> GetVersion(t, s) == Ok(AuthVersion(s))
  }

  lemma {:induction false} SetAuthFirst(ms: seq<Module>, v: string)
    requires FirstModule(ms, AuthorizationServer).Some?
    ensures var m := FirstModule(ms, AuthorizationServer).value;
            FirstModule(SetAuthVersion(ms, v), AuthorizationServer) == Some(m.(configVersion := v))
  {
    if ms[0].name != AuthorizationServer { SetAuthFirst(ms[1..], v); }
  }

  // The working copy is settled, whichever way its version is given.
  lemma PrepareSettles(t: Templates, s: Spec)
    requires Prepare(t, s).Ok?
    ensures Settled(t, Prepare(t, s).value)
  {
    var forced := s.(force := if s.force.None? then Some(true) else s.force);
    var full := if IsModuleEnabled(s, Observability) && t.defaults.Some?
                then forced.(modules := AddDefaults(s.modules, t.defaults.value)) else forced;
    if HasModule(full, AuthorizationServer) { SettleFull(t, full, GetVersion(t, full).value); }
  }

  lemma SettleFull(t: Templates, full: Spec, v: string)
    requires HasModule(full, AuthorizationServer) && GetVersion(t, full) == Ok(v)
    ensures Settled(t, full.(modules := SetAuthVersion(full.modules, v)))
  {
    SetAuthFirst(full.modules, v);
  }

  // The version written is the one the upgrade check let through.
  lemma CheckedConfigIsLawful(t: Templates, local: Stored)
    requires CheckUpgrade(t, local) != Reject && NewConfig(t, local).Some? && Settled(t, local.spec)
    ensures Lawful(t, Hop(local.spec, local.config, NewConfig(t, local)))
  {
    if local.config.Some? {
      ValidHopIff(PathsOf(t, "authorization"), local.config.value, NewConfig(t, local).value);
      ValidHopIff(PathsOf(t, Directory(local.spec.driver)), local.config.value, NewConfig(t, local).value);
    }
  }

  lemma TrailedInstall(t: Templates, sc: Script, base: Stored, local: Stored, w: World)
    requires Trailed(t, w) && !base.gone && !base.deleting && Drift(base, w.cr) && local == base.(spec := local.spec)
    requires CheckUpgrade(t, local) != Reject && Settled(t, local.spec)
    ensures Trailed(t, Install(t, sc, local, w))
  {
    var fin := if local.finalizer then Wrote(w, None) else Update(sc, w, local.(finalizer := true));
    if !local.finalizer {
      UpdateLands(sc, w, base, local.(finalizer := true));
      TrailedUpdate(t, sc, base, local.(finalizer := true), w);
    }
    if fin.error.None? {
      var l1, b1 := if local.finalizer then local else fin.world.cr, if local.finalizer then base else fin.world.cr;
      var v := NewConfig(t, l1);
      var conf := if v.None? then Wrote(fin.world, None) else Update(sc, fin.world, l1.(config := v));
      if v.Some? {
        CheckedConfigIsLawful(t, l1);
        UpdateLands(sc, fin.world, b1, l1.(config := v));
        TrailedUpdate(t, sc, b1, l1.(config := v), fin.world);
      }
      if conf.error.None? {
        var l2, b2 := if v.None? then l1 else conf.world.cr, if v.None? then b1 else conf.world.cr;
        TrailedSync(t, sc, b2, l2, conf.world);
      }
    }
  }

  lemma TrailedReconcile(t: Templates, sc: Script, w: World)
    requires Trailed(t, w)
    ensures Trailed(t, Reconcile(t, sc, w))
  {
    var w0 := Advance(sc, w);
    AdvanceDrift(sc, w);
    if At(sc, w.clock).fault.Clear? && !w0.cr.gone && Prepare(t, w0.cr.spec).Ok? {
      var local := w0.cr.(spec := Prepare(t, w0.cr.spec).value);
      var d := PreChecks(t, sc, local, w0);
      ChecksDrift(t, sc, local, w0);
      if !d.ok {
        AdvanceDrift(sc, d.world);
      } else if local.deleting {
        var ops := RemoveOps(t, local.spec);
        var g := if Forced(local.spec) then RunAll(sc, ops, d.world) else Done(d.world, true);
        RunDrift(sc, ops, d.world);
        DriftTransitive(w0.cr, d.world.cr, RunAll(sc, ops, d.world).world.cr);
        TrailedUpdate(t, sc, w0.cr, local.(finalizer := false), g.world);
      } else {
        PrepareSettles(t, w0.cr.spec);
        TrailedInstall(t, sc, w0.cr, local, d.world);
      }
    }
  }

  lemma ChecksDrift(t: Templates, sc: Script, local: Stored, w: World)
    ensures var d := PreChecks(t, sc, local, w);
            && Drift(w.cr, d.world.cr) && d.world.history == w.history
            && (d.ok ==> CheckUpgrade(t, local) != Reject)
  {
    var w1 := Advance(sc, w);
    AdvanceDrift(sc, w);
    AdvanceDrift(sc, w1);
    DriftTransitive(w.cr, w1.cr, Advance(sc, w1).cr);
  }

  // In every run the recorded versions chain into one path, and every hop is one IsValidUpgrade
  // accepts for the component it was written for, or a switch of the authorization proxy
  // server between v1 and v2.
  lemma {:induction false} RecordedVersionsFormAPath(t: Templates, sc: Script, es: seq<Event>, w: World)
    requires Trailed(t, w)
    ensures Trailed(t, History(t, sc, es, w))
    decreases |es|
  {
    if es != [] {
      if es[0].Reconciles? { TrailedReconcile(t, sc, w); }
      RecordedVersionsFormAPath(t, sc, es[1..], Occurs(t, sc, es[0], w));
    }
  }

  // A quiet reconcile of a resource with the authorization proxy server records the version
  // its check let through, even by skipping.
  lemma SkipIsRecorded(t: Templates, w: World, v: string)
    requires !w.cr.gone && !w.cr.deleting && w.cr.finalizer && Prepare(t, w.cr.spec) == Ok(w.cr.spec)
    requires IsModuleEnabled(w.cr.spec, AuthorizationServer) && w.cr.spec.driver == ""
    requires CheckUpgrade(t, w.cr) == Skip && NewConfig(t, w.cr) == Some(v)
    ensures Reconcile(t, [], w).cr.config == Some(v)
  {
    var w0 := Advance([], w);
    assert w0.cr == w.cr && w0.cr.(spec := w.cr.spec) == w.cr;
    assert HasModule(w.cr.spec, AuthorizationServer);
    assert PreChecks(t, [], w.cr, w0) == Done(w0, true);
    InstallRecords(t, w0, v);
  }

  lemma InstallRecords(t: Templates, w: World, v: string)
    requires !w.cr.gone && !w.cr.deleting && w.cr.finalizer && IsModuleEnabled(w.cr.spec, AuthorizationServer)
    requires NewConfig(t, w.cr) == Some(v)
    ensures Install(t, [], w.cr, w).cr.config == Some(v)
  {
    var conf := Update([], w, w.cr.(config := Some(v)));
    assert conf.error.None? && conf.world.cr == Replaced(w.cr, w.cr.(config := Some(v)));
    assert Sync(t, [], conf.world.cr, conf.world) == Run([], Gate, conf.world);
  }

  // The switch goes through to the stored annotation even where no upgrade path exists.
  lemma AuthorizationSwitchIsRecorded() returns (t: Templates, w: World)
    ensures w.cr.config == Some("v1.9.0") && PathsOf(t, "authorization") == map[]
    ensures Reconcile(t, [], w).cr.config == Some("v2.0.0")
  {
    var rbac := Rbac(Key("sa", "", ""), Key("cr", "", ""), Key("crb", "", ""), None, None);
    t := Templates(Cosi(rbac, Key("cm", "", ""), Key("dp", "", "")), [], [], map[], map[], map[], false, None, map[], map[], (s, k) => map[]);
    var s := Spec("", "", "", Some(true), [Module(AuthorizationServer, true, "v2.0.0", [])]);
    w := World(map[], Stored(false, s, 0, false, true, None, Some("v1.9.0")), 0, []);
    assert FirstModule(s.modules, AuthorizationServer) == Some(s.modules[0]);
    assert EnabledModule(s.modules, AuthorizationServer) == Some(s.modules[0]);
    assert FirstModule(s.modules, Observability) == FirstModule(s.modules[1..], Observability) == None;
    assert SetAuthVersion(s.modules, "v2.0.0") == s.modules;
    assert GetVersion(t, s) == Ok("v2.0.0");
    assert Prepare(t, s) == Ok(s);
    assert "v1." <= "v1.9.0" && "v2." <= "v2.0.0";
    SkipIsRecorded(t, w, "v2.0.0");
  }
}
