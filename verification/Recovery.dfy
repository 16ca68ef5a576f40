// However a run went wrong, one reconcile without failures repairs it.
module Recovery {
  import opened Resource
  import opened Cluster
  import opened Api
  import opened Versions
  import opened Lifecycle
  import opened Operations
  import opened Safety

  // From here on no call is refused or lost and the user leaves the resource alone.
  ghost predicate Quiet(sc: Script, clock: nat) {
    forall i :: clock <= i < |sc| ==> sc[i].user.Nothing? && sc[i].fault.Clear?
  }

  // And every workload can be read.
  ghost predicate Calm(sc: Script, clock: nat) { Quiet(sc, clock) && Sighted(sc, clock) }

  lemma {:induction false} QuietRun(sc: Script, ops: seq<Op>, w: World)
    requires Quiet(sc, w.clock) && Abort !in ops
    ensures var d := RunAll(sc, ops, w);
            d.ok && d.world.cr == w.cr && d.world.history == w.history && w.clock <= d.world.clock <= w.clock + 3 * |ops|
    decreases |ops|
  {
    if ops != [] {
      assert ops[0] in ops;
      var d := Run(sc, ops[0], w);
      QuietStep(sc, ops[0], w);
      QuietRun(sc, ops[1..], d.world);
    }
  }

  lemma QuietStep(sc: Script, op: Op, w: World)
    requires Quiet(sc, w.clock) && op != Abort
    ensures var d := Run(sc, op, w);
            d.ok && d.world.cr == w.cr && d.world.history == w.history && w.clock <= d.world.clock <= w.clock + 3
  {
  }

  lemma QuietUpdate(sc: Script, w: World, local: Stored)
    requires Quiet(sc, w.clock) && !w.cr.gone && w.cr.revision == local.revision
    ensures var u := Update(sc, w, local);
            u.error.None? && u.world.cr == Replaced(w.cr, local) && u.world.objects == w.objects && u.world.clock == w.clock + 1
  {
  }

  // What a spec must offer for its install to be able to finish: a driver the operator knows
  // and components it supports.
  ghost predicate Workable(t: Templates, was: Option<Spec>, s: Spec) {
    && KnownDriver(s.driver) && !HasModule(s, AuthorizationServer)
    && (was.Some? ==> Abort !in CleanupOps(t, was.value, s))
    && Abort !in DeployOps(t, s)
  }

  // The cleanup a sync starts with.
  function Cleanup(t: Templates, was: Option<Spec>, s: Spec): seq<Op> {
    if was.Some? then CleanupOps(t, was.value, s) else []
  }

  // The most calls a sync makes.
  function Length(t: Templates, was: Option<Spec>, s: Spec): nat {
    3 * |EarlyOps(t, s)| + 3 * |Cleanup(t, was, s)| + 3 * |DeployOps(t, s)| + 1
  }

  lemma QuietSync(t: Templates, sc: Script, local: Stored, w: World)
    requires Quiet(sc, w.clock) && !w.cr.gone && w.cr.revision == local.revision && Workable(t, local.previous, local.spec)
    ensures var d := Sync(t, sc, local, w);
            && d.ok && d.world.cr == Replaced(w.cr, local.(previous := Some(local.spec)))
            && w.clock <= d.world.clock <= w.clock + Length(t, local.previous, local.spec)
  {
    assert Abort !in EarlyOps(t, local.spec);
    QuietRun(sc, EarlyOps(t, local.spec), w);
    var w1 := RunAll(sc, EarlyOps(t, local.spec), w).world;
    var c := Cleanup(t, local.previous, local.spec);
    QuietRun(sc, c, w1);
    var w2 := RunAll(sc, c, w1).world;
    var local' := local.(previous := Some(local.spec));
    QuietUpdate(sc, w2, local');
    QuietRun(sc, DeployOps(t, local.spec), Update(sc, w2, local').world);
  }

  // The two writes before the sync, as world and copy.
  function Prepared(t: Templates, sc: Script, local: Stored, w: World): (r: (World, Stored)) {
    var fin := if local.finalizer then Wrote(w, None) else Update(sc, w, local.(finalizer := true));
    var l1 := if local.finalizer then local else fin.world.cr;
    var v := NewConfig(t, l1);
    var conf := if v.None? then Wrote(fin.world, None) else Update(sc, fin.world, l1.(config := v));
    (conf.world, if v.None? then l1 else conf.world.cr)
  }

  lemma QuietPrepared(t: Templates, sc: Script, local: Stored, w: World)
    requires Quiet(sc, w.clock) && !w.cr.gone && !w.cr.deleting && local == w.cr.(spec := local.spec)
    ensures var (w', l) := Prepared(t, sc, local, w);
            && Install(t, sc, local, w) == Sync(t, sc, l, w').world
            && w'.objects == w.objects && w.clock <= w'.clock <= w.clock + 2
            && !w'.cr.gone && !w'.cr.deleting && w'.cr.finalizer
            && l == w'.cr.(spec := local.spec) && l.previous == local.previous && l.spec == local.spec
            && l.config == (if NewConfig(t, local).Some? then NewConfig(t, local) else local.config)
  {
    if !local.finalizer { QuietUpdate(sc, w, local.(finalizer := true)); }
    var fin := if local.finalizer then Wrote(w, None) else Update(sc, w, local.(finalizer := true));
    var l1 := if local.finalizer then local else fin.world.cr;
    if NewConfig(t, l1).Some? { QuietUpdate(sc, fin.world, l1.(config := NewConfig(t, l1))); }
  }

  // One reconcile in which no call fails.
  lemma QuietReconcile(t: Templates, sc: Script, w: World, s: Spec)
    requires Quiet(sc, w.clock) && !w.cr.gone && !w.cr.deleting && Prepare(t, w.cr.spec) == Ok(s)
    requires Workable(t, w.cr.previous, s) && CheckUpgrade(t, w.cr.(spec := s)) == Proceed
    ensures var d := PreChecks(t, sc, w.cr.(spec := s), Advance(sc, w));
            var (w', l) := Prepared(t, sc, w.cr.(spec := s), d.world);
            && Reconcile(t, sc, w) == Sync(t, sc, l, w').world && Sync(t, sc, l, w').ok
            && d.ok && d.world.cr == w.cr && d.world.objects == w.objects && d.world.clock == w.clock + 3
            && w'.objects == w.objects && w.clock <= w'.clock <= w.clock + 5
            && l.spec == s && l.previous == w.cr.previous
    ensures var v := Reconcile(t, sc, w);
            && !v.cr.gone && !v.cr.deleting && v.cr.finalizer && v.cr.spec == s && v.cr.previous == Some(s)
            && v.cr.config == (if NewConfig(t, w.cr.(spec := s)).Some? then NewConfig(t, w.cr.(spec := s)) else w.cr.config)
            && w.clock <= v.clock <= w.clock + 5 + Length(t, w.cr.previous, s)
  {
    var w0, local := Advance(sc, w), w.cr.(spec := s);
    var d := PreChecks(t, sc, local, w0);
    assert d.ok && d.world.cr == w.cr && d.world.objects == w.objects && d.world.clock == w.clock + 3;
    QuietPrepared(t, sc, local, d.world);
    var (w', l) := Prepared(t, sc, local, d.world);
    QuietSync(t, sc, l, w');
  }

  // What a resource must offer for its install to be able to finish.
  ghost predicate Installable(t: Templates, cr: Stored, s: Spec) {
    && !cr.gone && !cr.deleting && Prepare(t, cr.spec) == Ok(s)
    && Workable(t, cr.previous, s) && CheckUpgrade(t, cr.(spec := s)) == Proceed
  }

  // The object is as the spec asks: there if it is a driver object or the spec owns it, with
  // what the spec renders, and gone if it is a module object the spec does not own.
  ghost predicate Converged(x: Watch, s: Spec, w: World) {
    && w.cr.previous == Some(s)
    && (Managed(x) && x.key in w.objects ==> Owned(x, s))
    && (x.t.driver.Csi? && Owned(x, s) ==> x.key in w.objects)
    && (Deploys(x.t, x.key) ==> x.key in w.objects)
    && Rendered(x.t, s, w.objects, x.key) && DriverContents(x.t, s, w.objects, x.key)
  }

  // After any run, however it failed, one reconcile without failures of an installable
  // resource leaves every firm object as its spec asks, and the spec recorded.
  lemma AnyRunRecovers(x: Watch, sc: Script, es: seq<Event>, w: World, s: Spec)
    requires Setting(x, sc, es, w) && Firm(x, sc)
    requires var v := History(x.t, sc, es, w); Quiet(sc, v.clock) && Installable(x.t, v.cr, s)
    ensures Converged(x, s, Reconcile(x.t, sc, History(x.t, sc, es, w)))
  {
    HistoryKeeps(x, sc, es, w);
    GoodRecovers(x, sc, History(x.t, sc, es, w), s);
  }

  lemma GoodRecovers(x: Watch, sc: Script, v: World, s: Spec)
    requires WellFormed(x) && DefaultsAgree(x) && Disciplined(x, sc) && Good(x, sc, v) && Firm(x, sc)
    requires Quiet(sc, v.clock) && Installable(x.t, v.cr, s)
    ensures Converged(x, s, Reconcile(x.t, sc, v))
  {
    var local := v.cr.(spec := s);
    PrepareRegular(x, v.cr.spec);
    GoodAdvance(x, sc, v);
    PreChecksGood(x, sc, local, Advance(sc, v));
    QuietReconcile(x.t, sc, v, s);
    var d := PreChecks(x.t, sc, local, Advance(sc, v));
    PreparedGood(x, sc, local, d.world);
    PreparedConverges(x, sc, local, d.world);
  }

  lemma PreparedConverges(x: Watch, sc: Script, local: Stored, w: World)
    requires WellFormed(x) && Disciplined(x, sc) && Firm(x, sc) && local.spec.driver != "" && !HasModule(local.spec, AuthorizationServer)
    requires Quiet(sc, w.clock) && !w.cr.gone && !w.cr.deleting && local == w.cr.(spec := local.spec)
    requires var (w', l) := Prepared(x.t, sc, local, w); Good(x, sc, w') && Copy(x, w'.cr, l, w') && Sync(x.t, sc, l, w').ok
    ensures var (w', l) := Prepared(x.t, sc, local, w); Converged(x, local.spec, Sync(x.t, sc, l, w').world)
  {
    QuietPrepared(x.t, sc, local, w);
    var (w', l) := Prepared(x.t, sc, local, w);
    SyncConverges(x, sc, w'.cr, l, w');
  }

  lemma PreparedGood(x: Watch, sc: Script, local: Stored, w: World)
    requires Quiet(sc, w.clock) && !w.cr.gone && !w.cr.deleting && local == w.cr.(spec := local.spec)
    requires Regular(x, local.spec) && Good(x, sc, w)
    ensures var (w', l) := Prepared(x.t, sc, local, w); Good(x, sc, w') && Copy(x, w'.cr, l, w')
  {
    QuietPrepared(x.t, sc, local, w);
    if !local.finalizer { QuietUpdate(sc, w, local.(finalizer := true)); }
    var fin := if local.finalizer then Wrote(w, None) else Update(sc, w, local.(finalizer := true));
    var l1 := if local.finalizer then local else fin.world.cr;
    assert Good(x, sc, fin.world);
    if NewConfig(x.t, l1).Some? { QuietUpdate(sc, fin.world, l1.(config := NewConfig(x.t, l1))); }
  }

  // After any run, one calm reconcile of a resource marked for forced removal removes the
  // driver and lets the resource go.
  lemma AnyRunCanBeRemoved(x: Watch, sc: Script, es: seq<Event>, w: World, s: Spec)
    requires Setting(x, sc, es, w)
    requires var v := History(x.t, sc, es, w);
             && Calm(sc, v.clock) && !v.cr.gone && v.cr.deleting && Prepare(x.t, v.cr.spec) == Ok(s)
             && KnownDriver(s.driver) && !HasModule(s, AuthorizationServer) && Forced(s)
             && CheckUpgrade(x.t, v.cr.(spec := s)) == Proceed && Abort !in RemoveOps(x.t, s)
    ensures var v' := Reconcile(x.t, sc, History(x.t, sc, es, w));
            v'.cr.gone && (x.key in v'.objects ==> !Owned(x, s) && !OfDriver(x.t, x.key))
  {
    HistoryKeeps(x, sc, es, w);
    var v := History(x.t, sc, es, w);
    PrepareRegular(x, v.cr.spec);
    QuietRemoval(x.t, sc, v, s);
    RemovalClears(x, sc, s, PreChecks(x.t, sc, v.cr.(spec := s), Advance(sc, v)).world);
  }

  // One reconcile of a resource marked for forced removal in which no call fails.
  lemma QuietRemoval(t: Templates, sc: Script, w: World, s: Spec)
    requires Quiet(sc, w.clock) && !w.cr.gone && w.cr.deleting && w.cr.finalizer && Prepare(t, w.cr.spec) == Ok(s)
    requires KnownDriver(s.driver) && !HasModule(s, AuthorizationServer) && Forced(s)
    requires CheckUpgrade(t, w.cr.(spec := s)) == Proceed && Abort !in RemoveOps(t, s)
    ensures var d := PreChecks(t, sc, w.cr.(spec := s), Advance(sc, w));
            var g := RunAll(sc, RemoveOps(t, s), d.world);
            && d.ok && d.world.objects == w.objects && d.world.clock == w.clock + 3
            && g.ok && Reconcile(t, sc, w).objects == g.world.objects && g.world.clock <= w.clock + 3 + 3 * |RemoveOps(t, s)|
            && Reconcile(t, sc, w).cr.gone && Reconcile(t, sc, w).cr.spec == s && Reconcile(t, sc, w).cr.previous == w.cr.previous
  {
    var w0, local := Advance(sc, w), w.cr.(spec := s);
    var d := PreChecks(t, sc, local, w0);
    assert d.ok && d.world.cr == w.cr && d.world.objects == w.objects && d.world.clock == w.clock + 3;
    QuietRun(sc, RemoveOps(t, s), d.world);
    QuietUpdate(sc, RunAll(sc, RemoveOps(t, s), d.world).world, local.(finalizer := false));
  }

  // The writes after the record are restartable: however many attempts stopped partway, a
  // clean pass ends where it would have ended without them.
  lemma DeployIsRestartable(t: Templates, sc: Script, s: Spec, w: World, n: nat)
    ensures EffectAll(DeployOps(t, s), Attempts(sc, DeployOps(t, s), w, n).objects) == EffectAll(DeployOps(t, s), w.objects)
  {
    SyncIsRestartable(sc, DeployOps(t, s), w, n);
  }
}
