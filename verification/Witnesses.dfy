// Runs that end with an object nobody owns.
module Witnesses {
  import opened Resource
  import opened Cluster
  import opened Api
  import opened Versions
  import opened Lifecycle
  import opened Operations
  import opened Safety
  import opened Recovery
  import opened Leftovers

  // ---------- three shapes of runs ----------

  // What the run of two installs needs: both specs can be installed, at one version.
  ghost predicate Pair(t: Templates, s0: Spec, s1: Spec, v: string) {
    && Prepare(t, s0) == Ok(s0) && Prepare(t, s1) == Ok(s1) && v != ""
    && GetVersion(t, s0) == Ok(v) && GetVersion(t, s1) == Ok(v)
    && Workable(t, None, s0) && Workable(t, Some(s0), s1)
  }

  // A stop of n ticks in which nothing fails and, if blind, no workload can be read.
  function Ticks(n: nat, blind: bool): Script { seq(n, i => Tick(Nothing, Clear, blind)) }

  function Enough(t: Templates, s0: Spec, s1: Spec): nat {
    10 + Length(t, None, s0) + Length(t, Some(s0), s1) + 10 + 3 * |RemoveOps(t, s0)| + 3 * |RemoveOps(t, s1)|
  }

  function NewResource(s: Spec): World { World(map[], Stored(false, s, 0, false, false, None, None), 0, []) }

  lemma QuietTicks(n: nat, blind: bool, clock: nat)
    ensures Quiet(Ticks(n, blind), clock) && Undisturbed(Ticks(n, blind))
    ensures !blind ==> Sighted(Ticks(n, blind), clock)
    ensures blind ==> forall i :: 0 <= i < n ==> At(Ticks(n, blind), i).blind
  {
  }

  // The first install: everything the deployment puts is there.
  lemma FirstInstall(t: Templates, sc: Script, w: World, s: Spec, v: string, k: Key)
    requires Unserved(w) && Quiet(sc, w.clock) && w.cr.spec == s && Prepare(t, s) == Ok(s) && v != "" && GetVersion(t, s) == Ok(v)
    requires Workable(t, None, s)
    ensures var w' := Reconcile(t, sc, w);
            && !w'.cr.gone && !w'.cr.deleting && w'.cr.finalizer && w'.cr.spec == s && w'.cr.previous == Some(s) && w'.cr.config == Some(v)
            && w.clock <= w'.clock <= w.clock + 5 + Length(t, None, s)
            && (PutsOn(DeployOps(t, s), k) ==> k in w'.objects)
  {
    QuietReconcile(t, sc, w, s);
    var d := PreChecks(t, sc, w.cr.(spec := s), Advance(sc, w));
    var (w1, l) := Prepared(t, sc, w.cr.(spec := s), d.world);
    if PutsOn(DeployOps(t, s), k) { SyncPuts(t, sc, l, w1, k); }
  }

  lemma SyncPuts(t: Templates, sc: Script, l: Stored, w: World, k: Key)
    requires Sync(t, sc, l, w).ok && l.spec.driver != "" && !IsModuleEnabled(l.spec, AuthorizationServer) && PutsOn(DeployOps(t, l.spec), k)
    ensures k in Sync(t, sc, l, w).world.objects
  {
    var clean := BeforeRecord(t, sc, l, w);
    var rec := Update(sc, clean.world, l.(previous := Some(l.spec)));
    DeployNeverRemoves(t, l.spec, k);
    RunSucceeds(sc, DeployOps(t, l.spec), rec.world, k);
  }

  // An object the cleanup does not drop, and at most sweeps blindly, outlives the sync.
  lemma OutlivesSync(t: Templates, sc: Script, l: Stored, w: World, was: Spec, k: Key)
    requires Quiet(sc, w.clock) && Sync(t, sc, l, w).ok && l.previous == Some(was) && Workable(t, Some(was), l.spec)
    requires k in w.objects && Drop(k) !in CleanupOps(t, was, l.spec)
    requires Sweep(k) in CleanupOps(t, was, l.spec) ==> forall i :: w.clock <= i <= w.clock + Length(t, Some(was), l.spec) ==> At(sc, i).blind
    ensures k in Sync(t, sc, l, w).world.objects
  {
    var w2, ops := RunAll(sc, EarlyOps(t, l.spec), w).world, CleanupOps(t, was, l.spec);
    EarlyEnds(t, sc, l.spec, was, w, k);
    BlindCleanup(t, sc, was, l.spec, w2, k);
    DeployKeeps(t, sc, l.spec, Update(sc, RunAll(sc, ops, w2).world, l.(previous := Some(l.spec))).world, k);
  }

  lemma EarlyEnds(t: Templates, sc: Script, s: Spec, was: Spec, w: World, k: Key)
    requires Quiet(sc, w.clock) && k in w.objects
    ensures var w2 := RunAll(sc, EarlyOps(t, s), w).world;
            && k in w2.objects
            && w.clock <= w2.clock && w2.clock + 3 * |CleanupOps(t, was, s)| <= w.clock + Length(t, Some(was), s)
  {
    assert Abort !in EarlyOps(t, s);
    QuietRun(sc, EarlyOps(t, s), w);
    EarlyKeeps(t, sc, s, w, k);
  }

  lemma DeployKeeps(t: Templates, sc: Script, s: Spec, w: World, k: Key)
    requires k in w.objects
    ensures k in RunAll(sc, DeployOps(t, s), w).world.objects
  {
    DeployNeverRemoves(t, s, k);
    RunKeys(sc, DeployOps(t, s), w, k);
  }

  lemma Outlives(t: Templates, sc: Script, w: World, was: Spec, s: Spec, k: Key)
    requires Quiet(sc, w.clock) && !w.cr.gone && !w.cr.deleting && w.cr.previous == Some(was) && Prepare(t, w.cr.spec) == Ok(s)
    requires Workable(t, Some(was), s) && CheckUpgrade(t, w.cr.(spec := s)) == Proceed
    requires k in w.objects && Drop(k) !in CleanupOps(t, was, s)
    requires Sweep(k) in CleanupOps(t, was, s) ==> forall i :: w.clock <= i <= w.clock + 5 + Length(t, Some(was), s) ==> At(sc, i).blind
    ensures k in Reconcile(t, sc, w).objects
  {
    QuietReconcile(t, sc, w, s);
    var d := PreChecks(t, sc, w.cr.(spec := s), Advance(sc, w));
    var (w1, l) := Prepared(t, sc, w.cr.(spec := s), d.world);
    OutlivesSync(t, sc, l, w1, was, k);
  }

  lemma EarlyKeeps(t: Templates, sc: Script, s: Spec, w: World, k: Key)
    requires k in w.objects
    ensures k in RunAll(sc, EarlyOps(t, s), w).world.objects
  {
    var x := Watch(t, c => SelfSigned, k);
    OrphanEarly(x, sc, s, w);
  }

  lemma BlindCleanup(t: Templates, sc: Script, was: Spec, now: Spec, w: World, k: Key)
    requires RunAll(sc, CleanupOps(t, was, now), w).ok && k in w.objects && Drop(k) !in CleanupOps(t, was, now)
    requires Sweep(k) in CleanupOps(t, was, now) ==>
               forall i :: w.clock <= i <= w.clock + 3 * |CleanupOps(t, was, now)| ==> At(sc, i).blind
    ensures k in RunAll(sc, CleanupOps(t, was, now), w).world.objects
  {
    var ops := CleanupOps(t, was, now);
    CleanupNeverPuts(t, was, now, k);
    SweptIff(sc, ops, w, k);
    forall i | 0 <= i < |ops| && ops[i] == Sweep(k) ensures At(sc, RunAll(sc, ops[..i], w).world.clock).blind {
      RunDrift(sc, ops[..i], w);
    }
  }

  // The world after the first install and the edit.
  function Edited(t: Templates, sc: Script, s0: Spec, s1: Spec): World {
    var w := Reconcile(t, sc, NewResource(s0));
    w.(cr := Acts(w.cr, Edit(s1)))
  }

  lemma AfterEdit(t: Templates, blind: bool, s0: Spec, s1: Spec, v: string, k: Key)
    requires Pair(t, s0, s1, v) && PutsOn(DeployOps(t, s0), k)
    ensures var sc := Ticks(Enough(t, s0, s1), blind);
            var w := Edited(t, sc, s0, s1);
            && Quiet(sc, w.clock) && w.clock <= 5 + Length(t, None, s0) && k in w.objects
            && !w.cr.gone && !w.cr.deleting && w.cr.finalizer && w.cr.spec == s1 && w.cr.previous == Some(s0) && w.cr.config == Some(v)
            && CheckUpgrade(t, w.cr) == Proceed
  {
    var sc := Ticks(Enough(t, s0, s1), blind);
    QuietTicks(Enough(t, s0, s1), blind, 0);
    Installed(t, sc, s0, s1, v, k);
    QuietTicks(Enough(t, s0, s1), blind, Edited(t, sc, s0, s1).clock);
    SameVersion(t, Edited(t, sc, s0, s1).cr, v);
  }

  lemma Installed(t: Templates, sc: Script, s0: Spec, s1: Spec, v: string, k: Key)
    requires Pair(t, s0, s1, v) && PutsOn(DeployOps(t, s0), k) && Quiet(sc, 0)
    ensures var w := Edited(t, sc, s0, s1);
            && w.clock <= 5 + Length(t, None, s0) && k in w.objects
            && !w.cr.gone && !w.cr.deleting && w.cr.finalizer && w.cr.spec == s1 && w.cr.previous == Some(s0) && w.cr.config == Some(v)
  {
    FirstInstall(t, sc, NewResource(s0), s0, v, k);
  }

  lemma SameVersion(t: Templates, cr: Stored, v: string)
    requires cr.config == Some(v) && GetVersion(t, cr.spec) == Ok(v) && !HasModule(cr.spec, AuthorizationServer)
    ensures CheckUpgrade(t, cr) == Proceed
  {
  }

  lemma SecondInstall(t: Templates, sc: Script, w: World, was: Spec, s: Spec, k: Key)
    requires Quiet(sc, w.clock) && !w.cr.gone && !w.cr.deleting && w.cr.previous == Some(was) && w.cr.spec == s && Prepare(t, s) == Ok(s)
    requires Workable(t, Some(was), s) && CheckUpgrade(t, w.cr) == Proceed
    requires k in w.objects && Drop(k) !in CleanupOps(t, was, s)
    requires Sweep(k) in CleanupOps(t, was, s) ==> forall i :: w.clock <= i <= w.clock + 5 + Length(t, Some(was), s) ==> At(sc, i).blind
    ensures var w' := Reconcile(t, sc, w);
            && k in w'.objects && !w'.cr.gone && !w'.cr.deleting && w'.cr.finalizer
            && w'.cr.spec == s && w'.cr.previous == Some(s)
  {
    assert w.cr.(spec := s) == w.cr;
    QuietReconcile(t, sc, w, s);
    Outlives(t, sc, w, was, s, k);
  }

  // Install, edit, install: the object the first install put is still there, and the second
  // spec is recorded.
  lemma EditRun(t: Templates, blind: bool, s0: Spec, s1: Spec, v: string, k: Key)
    requires Pair(t, s0, s1, v) && PutsOn(DeployOps(t, s0), k) && Drop(k) !in CleanupOps(t, s0, s1)
    requires Sweep(k) in CleanupOps(t, s0, s1) ==> blind
    ensures var sc := Ticks(Enough(t, s0, s1), blind);
            var w' := History(t, sc, [Reconciles, User(Edit(s1)), Reconciles], NewResource(s0));
            && k in w'.objects && !w'.cr.gone && !w'.cr.deleting && w'.cr.finalizer
            && w'.cr.spec == s1 && w'.cr.previous == Some(s1)
  {
    var sc := Ticks(Enough(t, s0, s1), blind);
    var w := Edited(t, sc, s0, s1);
    AfterEdit(t, blind, s0, s1, v, k);
    QuietTicks(Enough(t, s0, s1), blind, 0);
    SecondInstall(t, sc, w, s0, s1, k);
    EditEvents(t, sc, s0, s1);
  }

  lemma EditEvents(t: Templates, sc: Script, s0: Spec, s1: Spec)
    ensures History(t, sc, [Reconciles, User(Edit(s1)), Reconciles], NewResource(s0)) == Reconcile(t, sc, Edited(t, sc, s0, s1))
  {
    ThreeEvents(t, sc, Reconciles, User(Edit(s1)), Reconciles, NewResource(s0));
  }

  lemma DeleteEvents(t: Templates, sc: Script, s0: Spec, s1: Spec)
    ensures var w := Edited(t, sc, s0, s1);
            History(t, sc, [Reconciles, User(Edit(s1)), User(Delete), Reconciles], NewResource(s0)) == Reconcile(t, sc, w.(cr := Acts(w.cr, Delete)))
  {
    FourEvents(t, sc, Reconciles, User(Edit(s1)), User(Delete), Reconciles, NewResource(s0));
  }

  lemma ThreeEvents(t: Templates, sc: Script, a: Event, b: Event, c: Event, w: World)
    ensures History(t, sc, [a, b, c], w) == Occurs(t, sc, c, Occurs(t, sc, b, Occurs(t, sc, a, w)))
  {
    assert [a, b, c][1..] == [b, c] && [b, c][1..] == [c] && [c][1..] == [];
    var w1 := Occurs(t, sc, a, w);
    var w2 := Occurs(t, sc, b, w1);
    assert History(t, sc, [b, c], w1) == History(t, sc, [c], w2);
    assert History(t, sc, [c], w2) == History(t, sc, [], Occurs(t, sc, c, w2));
  }

  // Install, edit, delete, reconcile: the resource is gone, and the object is there if the
  // removal of the last spec does not drop it, and at most sweeps it blindly.
  lemma DeleteRun(t: Templates, blind: bool, s0: Spec, s1: Spec, v: string, k: Key)
    requires Pair(t, s0, s1, v) && PutsOn(DeployOps(t, s0), k) && Forced(s1) && Abort !in RemoveOps(t, s1)
    requires !PutsOn(RemoveOps(t, s1), k) && Drop(k) !in RemoveOps(t, s1) && (Sweep(k) in RemoveOps(t, s1) ==> blind)
    ensures var sc := Ticks(Enough(t, s0, s1), blind);
            var w' := History(t, sc, [Reconciles, User(Edit(s1)), User(Delete), Reconciles], NewResource(s0));
            k in w'.objects && w'.cr.gone && w'.cr.spec == s1 && w'.cr.previous == Some(s0)
  {
    var sc := Ticks(Enough(t, s0, s1), blind);
    var w := Edited(t, sc, s0, s1);
    AfterEdit(t, blind, s0, s1, v, k);
    QuietTicks(Enough(t, s0, s1), blind, 0);
    DeletedStep(t, sc, w, s1, k);
    DeleteEvents(t, sc, s0, s1);
  }

  lemma DeletedStep(t: Templates, sc: Script, w: World, s: Spec, k: Key)
    requires Quiet(sc, w.clock) && !w.cr.gone && !w.cr.deleting && w.cr.finalizer && w.cr.spec == s && Prepare(t, s) == Ok(s)
    requires KnownDriver(s.driver) && !HasModule(s, AuthorizationServer) && Forced(s) && CheckUpgrade(t, w.cr) == Proceed
    requires Abort !in RemoveOps(t, s) && k in w.objects && !PutsOn(RemoveOps(t, s), k) && Drop(k) !in RemoveOps(t, s)
    requires Sweep(k) in RemoveOps(t, s) ==> forall i :: w.clock <= i <= w.clock + 3 + 3 * |RemoveOps(t, s)| ==> At(sc, i).blind
    ensures var v := Reconcile(t, sc, w.(cr := Acts(w.cr, Delete)));
            k in v.objects && v.cr.gone && v.cr.spec == s && v.cr.previous == w.cr.previous
  {
    var w' := w.(cr := Acts(w.cr, Delete));
    SameUpgrade(t, w.cr, w'.cr);
    MarkedRemoval(t, sc, w', s, k);
  }

  lemma SameUpgrade(t: Templates, cr: Stored, cr': Stored)
    requires cr'.spec == cr.spec && cr'.config == cr.config
    ensures CheckUpgrade(t, cr') == CheckUpgrade(t, cr)
  {
  }

  lemma MarkedRemoval(t: Templates, sc: Script, w: World, s: Spec, k: Key)
    requires Quiet(sc, w.clock) && !w.cr.gone && w.cr.deleting && w.cr.finalizer && w.cr.spec == s && Prepare(t, s) == Ok(s)
    requires KnownDriver(s.driver) && !HasModule(s, AuthorizationServer) && Forced(s) && CheckUpgrade(t, w.cr) == Proceed
    requires Abort !in RemoveOps(t, s) && k in w.objects && !PutsOn(RemoveOps(t, s), k) && Drop(k) !in RemoveOps(t, s)
    requires Sweep(k) in RemoveOps(t, s) ==> forall i :: w.clock <= i <= w.clock + 3 + 3 * |RemoveOps(t, s)| ==> At(sc, i).blind
    ensures var v := Reconcile(t, sc, w);
            k in v.objects && v.cr.gone && v.cr.spec == s && v.cr.previous == w.cr.previous
  {
    assert w.cr.(spec := s) == w.cr;
    QuietRemoval(t, sc, w, s);
    BlindRemoval(t, sc, s, PreChecks(t, sc, w.cr, Advance(sc, w)).world, k);
  }

  lemma FourEvents(t: Templates, sc: Script, a: Event, b: Event, c: Event, d: Event, w: World)
    ensures History(t, sc, [a, b, c, d], w) == Occurs(t, sc, d, Occurs(t, sc, c, Occurs(t, sc, b, Occurs(t, sc, a, w))))
  {
    assert [a, b, c, d][1..] == [b, c, d];
    ThreeEvents(t, sc, b, c, d, Occurs(t, sc, a, w));
  }

  lemma BlindRemoval(t: Templates, sc: Script, s: Spec, w: World, k: Key)
    requires RunAll(sc, RemoveOps(t, s), w).ok && k in w.objects && !PutsOn(RemoveOps(t, s), k) && Drop(k) !in RemoveOps(t, s)
    requires Sweep(k) in RemoveOps(t, s) ==> forall i :: w.clock <= i <= w.clock + 3 * |RemoveOps(t, s)| ==> At(sc, i).blind
    ensures k in RunAll(sc, RemoveOps(t, s), w).world.objects
  {
    var ops := RemoveOps(t, s);
    SweptIff(sc, ops, w, k);
    forall i | 0 <= i < |ops| && ops[i] == Sweep(k) ensures At(sc, RunAll(sc, ops[..i], w).world.clock).blind {
      RunDrift(sc, ops[..i], w);
    }
  }

  // ---------- when the lists do not abort ----------

  // Every component is supported and no certificate is half given.
  ghost predicate Complete(t: Templates, s: Spec) {
    && GetVersion(t, s).Ok?
    && (forall m, i :: m in s.modules && m.name == Observability && 0 <= i < |m.components| ==> Supported(m.components[i].name))
    && (HasModule(s, Observability) ==>
          forall c :: ModeOf(FirstModule(s.modules, Observability).value.components, c) != Half)
  }

  lemma NoAbort(t: Templates, deleting: bool, s: Spec, components: seq<string>)
    requires Complete(t, s) && HasModule(s, Observability) && forall c :: c in components ==> Supported(c)
    ensures Abort !in ObservabilityOps(t, deleting, s, components)
  {
    var m := EnabledModule(s.modules, Observability);
    var cs := if components == [] && m.Some? then Retired(s, None, m.value.components) else components;
    var first := FirstModule(s.modules, Observability).value.components;
    ComponentOpsHold(t, deleting, s, cs, Abort);
    CertificateOpsHold(t, deleting, s, first, first, Abort);
    forall c | c in cs ensures Abort !in OneComponent(t, deleting, s, c) {
      NoAbortIn(t, deleting, s, ComponentSlots(t, c));
    }
    forall e | e in first ensures Abort !in CertificateOp(t, deleting, s, first, e) {
      NoAbortIn(t, deleting, s, Slots(Lenient, CertificateKeys(t, ModeOf(first, e.name), e.name)));
    }
  }

  lemma NoAbortIn(t: Templates, deleting: bool, s: Spec, slots: seq<Slot>)
    ensures Abort !in Rewrite(t, deleting, s, slots)
  {
  }

  lemma RetiredSupported(t: Templates, s: Spec, now: Option<Spec>)
    requires Complete(t, s) && IsModuleEnabled(s, Observability)
    ensures forall c :: c in Retired(s, now, EnabledModule(s.modules, Observability).value.components) ==> Supported(c)
  {
  }

  lemma Works(t: Templates, s: Spec)
    requires Complete(t, s)
    ensures Abort !in DeployOps(t, s) && Abort !in RemoveOps(t, s)
    ensures forall now :: Abort !in CleanupOps(t, s, now)
  {
    NoAbortIn(t, false, s, DriverSlots(t.driver));
    NoAbortIn(t, false, s, Slots(Lenient, t.replication));
    NoAbortIn(t, true, s, Slots(Lenient, t.replication));
    if HasModule(s, Observability) {
      NoAbort(t, false, s, []);
      NoAbort(t, true, s, []);
    }
    forall now ensures Abort !in CleanupOps(t, s, now) {
      if IsModuleEnabled(s, Observability) && IsModuleEnabled(now, Observability) {
        RetiredSupported(t, s, Some(now));
        NoAbort(t, true, s, Retired(s, Some(now), EnabledModule(s.modules, Observability).value.components));
      }
    }
    DriverNoAbort(t);
  }

  lemma DriverNoAbort(t: Templates)
    ensures Abort !in DriverRemovals(t.driver)
  {
    if Abort in DriverRemovals(t.driver) { DriverDrops(t, Key("", "", "")); }
  }

  // ---------- the inputs ----------

  function K(name: string): Key { Key("object", "", name) }

  const NodeRbac := Rbac(K("node"), K("node-role"), K("node-binding"), None, None)
  const ControllerRbac := Rbac(K("controller"), K("controller-role"), K("controller-binding"), None, None)

  const Sample := Templates(
    Csi(NodeRbac, ControllerRbac, K("params"), K("csi"), K("node-daemonset"), K("controller-deployment")),
    [K("replication")], [],
    map[Otel := [Slot(Plain, K("otel"))], PowerStoreMetrics := [Slot(Plain, K("service")), Slot(DeployApply, K("metrics"))]],
    map[Otel := [K("selfsigned-issuer")]], map[Otel := [K("otel-secret")]],
    false, Some([]), map[], map[], (s, k) => map[])

  const Release := "v2.15.0"

  function With(ms: seq<Module>): Spec { Spec("powerstore", "", Release, Some(true), ms) }

  function Observes(enabled: bool, cs: seq<Component>): Module { Module(Observability, enabled, "", cs) }

  function Replicates(enabled: bool): Module { Module(Replication, enabled, "", []) }

  // A spec of at most two modules of these two kinds.
  ghost predicate Small(s: Spec) {
    && s == With(s.modules) && |s.modules| <= 2
    && (forall m :: m in s.modules ==> m.name == Observability || m.name == Replication)
    && (forall m, i :: m in s.modules && m.name == Observability && 0 <= i < |m.components| ==> Supported(m.components[i].name))
    && (HasModule(s, Observability) ==> forall c :: ModeOf(FirstModule(s.modules, Observability).value.components, c) != Half)
  }

  lemma SmallWorks(s: Spec)
    requires Small(s)
    ensures Prepare(Sample, s) == Ok(s) && GetVersion(Sample, s) == Ok(Release) && Complete(Sample, s)
    ensures KnownDriver(s.driver) && !HasModule(s, AuthorizationServer) && Forced(s)
    ensures Abort !in DeployOps(Sample, s) && Abort !in RemoveOps(Sample, s) && forall now :: Abort !in CleanupOps(Sample, s, now)
  {
    assert AddDefaults(s.modules, []) == s.modules;
    assert s.(force := Some(true)) == s && s.(modules := s.modules) == s;
    Works(Sample, s);
  }

  lemma SmallPair(s0: Spec, s1: Spec)
    requires Small(s0) && Small(s1)
    ensures Pair(Sample, s0, s1, Release)
  {
    SmallWorks(s0);
    SmallWorks(s1);
  }

  lemma OneMode(c: Component, name: string)
    ensures ModeOf([c], name) == if c.name == name then Issued(c) else SelfSigned
  {
    assert [c][..0] == [];
    assert ModeOf([], name) == SelfSigned;
  }

  lemma Lone(m: Module)
    ensures FirstModule([m], m.name) == Some(m)
    ensures m.enabled ==> EnabledModule([m], m.name) == Some(m)
    ensures !m.enabled ==> EnabledModule([m], m.name) == None
    ensures forall n :: n != m.name ==> FirstModule([m], n) == None && EnabledModule([m], n) == None
  {
    assert [m][1..] == [];
  }

  lemma Two(m: Module, n: Module)
    requires m.name == n.name && !m.enabled && n.enabled
    ensures FirstModule([m, n], m.name) == Some(m) && EnabledModule([m, n], m.name) == Some(n)
    ensures forall o :: o != m.name ==> FirstModule([m, n], o) == None && EnabledModule([m, n], o) == None
  {
    assert [m, n][1..] == [n] && [n][1..] == [];
    Lone(n);
  }

  // ---------- the runs ----------

  // Disabling a metrics component while its Deployment cannot be read: the sync succeeds, the
  // new spec is recorded, and the Deployment stays for good, in a run the no-orphan theorem
  // covers but for the blind reads.
  lemma LapsedOrphans(x: Watch, s0: Spec, s1: Spec, v: string, c: string, n: nat)
    requires Pair(x.t, s0, s1, v) && x.t.driver.Csi? && DeploymentOf(x.t, c, x.key) && Lapsed(s0, Some(s1), c)
    requires Regular(x, s0) && Regular(x, s1) && DefaultsAgree(x)
    ensures var sc, es, w := Ticks(Enough(x.t, s0, s1), true), [Reconciles, User(Edit(s1)), Reconciles], NewResource(s0);
            var w' := History(x.t, sc, es, w);
            && Setting(x, sc, es, w) && Managed(x) && Swept(x.t, x.key)
            && !w'.cr.gone && w'.cr.previous == Some(s1) && !Owned(x, s1) && x.key in w'.objects
            && x.key in History(x.t, sc, seq(n, i => Reconciles), w').objects
  {
    var sc := Ticks(Enough(x.t, s0, s1), true);
    DeploymentFacts(x, s1, c);
    LapsedRun(x.t, s0, s1, v, c, x.key);
    EditSetting(x, sc, s0, s1);
    QuietTicks(Enough(x.t, s0, s1), true, 0);
    OrphanStays(x, sc, s1, History(x.t, sc, [Reconciles, User(Edit(s1)), Reconciles], NewResource(s0)), n);
  }

  lemma LapsedRun(t: Templates, s0: Spec, s1: Spec, v: string, c: string, k: Key)
    requires Pair(t, s0, s1, v) && t.driver.Csi? && DeploymentOf(t, c, k) && Lapsed(s0, Some(s1), c)
    ensures var w' := History(t, Ticks(Enough(t, s0, s1), true), [Reconciles, User(Edit(s1)), Reconciles], NewResource(s0));
            && k in w'.objects && !w'.cr.gone && !w'.cr.deleting && w'.cr.finalizer
            && w'.cr.spec == s1 && w'.cr.previous == Some(s1)
  {
    DeploymentPut(t, s0, c, k);
    CleanupSweeps(t, s0, s1, c, k);
    EditRun(t, true, s0, s1, v, k);
  }

  lemma EditSetting(x: Watch, sc: Script, s0: Spec, s1: Spec)
    requires WellFormed(x) && Regular(x, s0) && Regular(x, s1) && DefaultsAgree(x)
    requires sc == Ticks(|sc|, true) || sc == Ticks(|sc|, false)
    ensures Setting(x, sc, [Reconciles, User(Edit(s1)), Reconciles], NewResource(s0))
    ensures Setting(x, sc, [Reconciles, User(Edit(s1)), User(Delete), Reconciles], NewResource(s0))
  {
  }

  lemma DeploymentFacts(x: Watch, s: Spec, c: string)
    requires DeploymentOf(x.t, c, x.key) && !IsComponentEnabled(s, Observability, c)
    ensures WellFormed(x) && Managed(x) && Swept(x.t, x.key) && !Owned(x, s) && !OfDriver(x.t, x.key)
  {
    var slots := ComponentSlots(x.t, c);
    var i :| 0 <= i < |slots| && slots[i] == Slot(DeployApply, x.key);
    assert Keys(slots)[i] == x.key;
    assert OfComponent(x, c);
    forall e | OfComponent(x, e) ensures e == c {
      var j :| 0 <= j < |ComponentSlots(x.t, e)| && Keys(ComponentSlots(x.t, e))[j] == x.key;
      assert ComponentSlots(x.t, e)[j].key == x.key;
    }
  }

  lemma DeploymentPut(t: Templates, s: Spec, c: string, k: Key)
    requires t.driver.Csi? && DeploymentOf(t, c, k) && IsComponentEnabled(s, Observability, c) && Abort !in DeployOps(t, s)
    ensures PutsOn(DeployOps(t, s), k)
  {
    var slots := ComponentSlots(t, c);
    var i :| 0 <= i < |slots| && slots[i] == Slot(DeployApply, k);
    assert Keys(slots)[i] == k;
    assert Abort !in ObservabilityOps(t, false, s, []);
    var op := ComponentReaches(t, false, s, [], c, k);
    assert op in DeployOps(t, s);
  }

  // Changing the certificates of an enabled component, with no call failing: the old ones stay.
  lemma ModeChangeOrphans(t: Templates, s0: Spec, s1: Spec, v: string, k: Key)
    requires Pair(t, s0, s1, v) && t.driver.Csi? && CertificateObject(t, k) && IsModuleEnabled(s0, Observability)
    requires HasIssued(t, s0, k) && !HasIssued(t, s1, k) && !Renews(s0, s1)
    ensures var sc := Ticks(Enough(t, s0, s1), false);
            var w' := History(t, sc, [Reconciles, User(Edit(s1)), Reconciles], NewResource(s0));
            !w'.cr.gone && w'.cr.previous == Some(s1) && k in w'.objects
  {
    CertificatePut(t, s0, k);
    CertificateDropped(t, s0, s1, k);
    EditRun(t, false, s0, s1, v, k);
  }

  // Dropping replication when the first entry of the recorded spec was not the enabled one.
  lemma UntidyReplicationOrphans(t: Templates, s0: Spec, s1: Spec, v: string, k: Key)
    requires Pair(t, s0, s1, v) && t.driver.Csi? && ReplicationObject(t, k)
    requires IsModuleEnabled(s0, Replication) && !ReplicaEnabled(s0) && !IsModuleEnabled(s1, Replication)
    ensures var sc := Ticks(Enough(t, s0, s1), false);
            var w' := History(t, sc, [Reconciles, User(Edit(s1)), Reconciles], NewResource(s0));
            !w'.cr.gone && w'.cr.previous == Some(s1) && k in w'.objects
  {
    ReplicationPut(t, s0, k);
    ReplicationDropped(t, s0, s1, k);
    EditRun(t, false, s0, s1, v, k);
  }

  // Disabling replication and deleting the resource before the next sync.
  lemma StrandedByDelete(t: Templates, s0: Spec, s1: Spec, v: string, k: Key)
    requires Pair(t, s0, s1, v) && t.driver.Csi? && ReplicationObject(t, k) && !OfDriver(t, k)
    requires IsModuleEnabled(s0, Replication) && !IsModuleEnabled(s1, Replication) && Forced(s1) && Abort !in RemoveOps(t, s1)
    ensures var sc := Ticks(Enough(t, s0, s1), false);
            var w' := History(t, sc, [Reconciles, User(Edit(s1)), User(Delete), Reconciles], NewResource(s0));
            w'.cr.gone && w'.cr.spec == s1 && k in w'.objects
  {
    ReplicationPut(t, s0, k);
    RemovalMisses(t, s1, k);
    DeleteRun(t, false, s0, s1, v, k);
  }

  lemma RemovalMisses(t: Templates, s: Spec, k: Key)
    requires ReplicationObject(t, k) && !OfDriver(t, k) && !IsModuleEnabled(s, Replication)
    ensures !PutsOn(RemoveOps(t, s), k) && Drop(k) !in RemoveOps(t, s) && Sweep(k) !in RemoveOps(t, s)
  {
    var ops := RemoveOps(t, s);
    forall op | op in ops && !Idle(op) ensures !op.Put? && op.key != k { ReplicationUntouched(t, s, k, op); }
  }

  lemma ReplicationUntouched(t: Templates, s: Spec, k: Key, op: Op)
    requires ReplicationObject(t, k) && !OfDriver(t, k) && !IsModuleEnabled(s, Replication) && op in RemoveOps(t, s) && !Idle(op)
    ensures !op.Put? && op.key != k
  {
    RemoveParts(t, s, op);
    if op in DriverRemovals(t.driver) {
      DriverDrops(t, op.key);
    } else {
      ObservabilityKinds(t, true, s, [], op);
      ObservabilityMisses(t, true, s, [], k, op);
    }
  }

  // A DaemonSet that cannot be read when its resource is removed.
  lemma BlindRemovalLeaves(x: Watch, s: Spec, v: string)
    requires Pair(x.t, s, s, v) && Forced(s) && Abort !in RemoveOps(x.t, s) && WellFormed(x) && Regular(x, s) && DefaultsAgree(x)
    requires x.t.driver.Csi? && x.key == x.t.driver.daemonSet
    requires var d := x.t.driver; x.key !in RbacKeys(d.node) + RbacKeys(d.controller) + [d.configMap, d.csiDriver]
    ensures var sc, es := Ticks(Enough(x.t, s, s), true), [Reconciles, User(Edit(s)), User(Delete), Reconciles];
            var w' := History(x.t, sc, es, NewResource(s));
            Setting(x, sc, es, NewResource(s)) && OfDriver(x.t, x.key) && w'.cr.gone && Forced(w'.cr.spec) && x.key in w'.objects
  {
    DaemonSetPut(x.t, s);
    DaemonSetUndropped(x, s);
    RemovalTouches(x, s);
    DeleteRun(x.t, true, s, s, v, x.key);
    EditSetting(x, Ticks(Enough(x.t, s, s), true), s, s);
  }

  lemma DaemonSetPut(t: Templates, s: Spec)
    requires t.driver.Csi?
    ensures PutsOn(DeployOps(t, s), t.driver.daemonSet)
  {
    var slots := DriverSlots(t.driver);
    assert slots[|slots| - 1] == Slot(DaemonApply, t.driver.daemonSet);
    assert Keys(slots)[|slots| - 1] == t.driver.daemonSet;
    var op := SlotOp(t, false, s, slots, t.driver.daemonSet);
    assert op in DeployOps(t, s);
  }

  // ---------- and their inputs ----------

  const MetricsOn := With([Observes(true, [Component(PowerStoreMetrics, true, "", "")])])
  const MetricsOff := With([Observes(true, [Component(PowerStoreMetrics, false, "", "")])])
  const OwnCertificate := With([Observes(true, [Component(Otel, true, "certificate", "key")])])
  const NoCertificate := With([Observes(true, [Component(Otel, true, "", "")])])
  const Split := With([Observes(false, [Component(Otel, true, "", "")]), Observes(true, [])])
  const SplitOff := With([Observes(false, [Component(Otel, false, "", "")]), Observes(true, [])])
  const Replicating := With([Replicates(true)])
  const SplitReplicating := With([Replicates(false), Replicates(true)])
  const Bare := With([])

  lemma SampleKeys(k: Key)
    requires k in {K("metrics"), K("otel-secret"), K("selfsigned-issuer"), K("replication")}
    ensures k !in Keys(DriverSlots(Sample.driver)) && !OfDriver(Sample, k)
  {
    var slots := DriverSlots(Sample.driver);
    forall i | 0 <= i < |slots| ensures slots[i].key != k { DriverSlotsHold(Sample, slots[i]); }
  }

  lemma SampleComponents(k: Key)
    requires k in {K("otel-secret"), K("selfsigned-issuer"), K("replication"), K("node-daemonset")}
    ensures forall c :: k !in Keys(ComponentSlots(Sample, c))
  {
    forall c ensures k !in Keys(ComponentSlots(Sample, c)) {
      var slots := ComponentSlots(Sample, c);
      forall i | 0 <= i < |slots| ensures slots[i].key != k { }
    }
  }

  lemma SampleCertificates(k: Key)
    requires k !in {K("otel-secret"), K("selfsigned-issuer")}
    ensures forall c, mode :: k !in CertificateKeys(Sample, mode, c)
  {
  }

  lemma LoneObserver(cs: seq<Component>)
    ensures var s := With([Observes(true, cs)]);
            && FirstModule(s.modules, Observability) == Some(Observes(true, cs)) == EnabledModule(s.modules, Observability)
            && FirstModule(s.modules, Replication) == None == EnabledModule(s.modules, Replication) && Tidy(s)
  {
    Lone(Observes(true, cs));
  }

  lemma LoneSmall(c: Component)
    requires Supported(c.name) && !Issued(c).Half?
    ensures Small(With([Observes(true, [c])]))
    ensures forall n :: IsComponentEnabled(With([Observes(true, [c])]), Observability, n) <==> n == c.name && c.enabled
  {
    LoneObserver([c]);
    forall n ensures ModeOf([c], n) != Half { OneMode(c, n); }
    forall n ensures Switched([c], n) <==> n == c.name && c.enabled { assert [c][0] == c; }
  }

  lemma MetricsInput(n: nat) returns (x: Watch, sc: Script, es: seq<Event>, w: World)
    ensures Setting(x, sc, es, w) && Managed(x) && Swept(x.t, x.key)
    ensures var v := History(x.t, sc, es, w);
            && !v.cr.gone && v.cr.previous.Some? && !Owned(x, v.cr.previous.value) && x.key in v.objects
            && x.key in History(x.t, sc, seq(n, i => Reconciles), v).objects
  {
    x := Watch(Sample, c => SelfSigned, K("metrics"));
    LoneSmall(Component(PowerStoreMetrics, true, "", ""));
    LoneSmall(Component(PowerStoreMetrics, false, "", ""));
    LoneObserver([Component(PowerStoreMetrics, true, "", "")]);
    LoneObserver([Component(PowerStoreMetrics, false, "", "")]);
    SmallPair(MetricsOn, MetricsOff);
    SampleCertificates(x.key);
    Modeless(x);
    MetricsDeployment();
    LapsedOrphans(x, MetricsOn, MetricsOff, Release, PowerStoreMetrics, n);
    sc, es, w := Ticks(Enough(Sample, MetricsOn, MetricsOff), true), [Reconciles, User(Edit(MetricsOff)), Reconciles], NewResource(MetricsOn);
  }

  lemma MetricsDeployment()
    ensures DeploymentOf(Sample, PowerStoreMetrics, K("metrics"))
  {
    assert ComponentSlots(Sample, PowerStoreMetrics)[1] == Slot(DeployApply, K("metrics"));
    SampleCertificates(K("metrics"));
    SampleKeys(K("metrics"));
  }

  lemma SampleCertificate(k: Key)
    requires k in {K("otel-secret"), K("selfsigned-issuer")}
    ensures CertificateObject(Sample, k)
  {
    SampleKeys(k);
    SampleComponents(k);
  }

  lemma CertificateFacts()
    ensures HasIssued(Sample, OwnCertificate, K("otel-secret")) && !HasIssued(Sample, NoCertificate, K("otel-secret"))
    ensures IsModuleEnabled(OwnCertificate, Observability) && !Renews(OwnCertificate, NoCertificate)
    ensures Tidy(OwnCertificate) && Tidy(NoCertificate)
  {
    var own, none := Component(Otel, true, "certificate", "key"), Component(Otel, true, "", "");
    LoneSmall(own);
    LoneSmall(none);
    LoneObserver([own]);
    LoneObserver([none]);
    OneMode(own, Otel);
    OneMode(none, Otel);
    assert own in [own];
    assert K("otel-secret") in CertificateKeys(Sample, Custom, Otel);
  }

  // Consistent specs, no failing call: from a certificate of its own to a self-signed one.
  lemma CertificateInput() returns (sc: Script, es: seq<Event>, w: World, k: Key)
    ensures Tidy(OwnCertificate) && Tidy(NoCertificate) && Undisturbed(sc) && Quiet(sc, 0) && Sighted(sc, 0)
    ensures Unserved(w) && w.cr.spec == OwnCertificate && HasIssued(Sample, OwnCertificate, k) && !HasIssued(Sample, NoCertificate, k)
    ensures var v := History(Sample, sc, es, w); !v.cr.gone && v.cr.previous == Some(NoCertificate) && k in v.objects
  {
    k := K("otel-secret");
    CertificateFacts();
    LoneSmall(Component(Otel, true, "certificate", "key"));
    LoneSmall(Component(Otel, true, "", ""));
    SmallPair(OwnCertificate, NoCertificate);
    SampleCertificate(k);
    ModeChangeOrphans(Sample, OwnCertificate, NoCertificate, Release, k);
    sc, es, w := Ticks(Enough(Sample, OwnCertificate, NoCertificate), false), [Reconciles, User(Edit(NoCertificate)), Reconciles], NewResource(OwnCertificate);
    QuietTicks(Enough(Sample, OwnCertificate, NoCertificate), false, 0);
  }

  lemma SplitObserver(cs: seq<Component>)
    ensures var s := With([Observes(false, cs), Observes(true, [])]);
            && FirstModule(s.modules, Observability) == Some(Observes(false, cs))
            && EnabledModule(s.modules, Observability) == Some(Observes(true, []))
            && FirstModule(s.modules, Replication) == None == EnabledModule(s.modules, Replication)
            && forall c :: !IsComponentEnabled(s, Observability, c)
  {
    Two(Observes(false, cs), Observes(true, []));
  }

  lemma SplitSmall(c: Component)
    requires Supported(c.name) && !Issued(c).Half?
    ensures Small(With([Observes(false, [c]), Observes(true, [])]))
  {
    SplitObserver([c]);
    forall n ensures ModeOf([c], n) != Half { OneMode(c, n); }
  }

  lemma SplitFacts()
    ensures HasIssued(Sample, Split, K("selfsigned-issuer")) && !HasIssued(Sample, SplitOff, K("selfsigned-issuer"))
    ensures IsModuleEnabled(Split, Observability) && !Renews(Split, SplitOff) && !Consistent(Split, Observability)
  {
    var on, off := Component(Otel, true, "", ""), Component(Otel, false, "", "");
    SplitObserver([on]);
    SplitObserver([off]);
    OneMode(on, Otel);
    assert on in [on];
    assert K("selfsigned-issuer") in CertificateKeys(Sample, SelfSigned, Otel);
  }

  // Two observability entries: the certificates follow the first, the components the second.
  lemma SplitInput() returns (sc: Script, es: seq<Event>, w: World, k: Key)
    ensures Undisturbed(sc) && Quiet(sc, 0) && Sighted(sc, 0) && !Consistent(Split, Observability)
    ensures Unserved(w) && w.cr.spec == Split && HasIssued(Sample, Split, k) && !HasIssued(Sample, SplitOff, k)
    ensures var v := History(Sample, sc, es, w); !v.cr.gone && v.cr.previous == Some(SplitOff) && k in v.objects
  {
    k := K("selfsigned-issuer");
    SplitFacts();
    SplitSmall(Component(Otel, true, "", ""));
    SplitSmall(Component(Otel, false, "", ""));
    SmallPair(Split, SplitOff);
    SampleCertificate(k);
    ModeChangeOrphans(Sample, Split, SplitOff, Release, k);
    sc, es, w := Ticks(Enough(Sample, Split, SplitOff), false), [Reconciles, User(Edit(SplitOff)), Reconciles], NewResource(Split);
    QuietTicks(Enough(Sample, Split, SplitOff), false, 0);
  }

  lemma SampleReplication()
    ensures ReplicationObject(Sample, K("replication")) && !OfDriver(Sample, K("replication"))
  {
    SampleKeys(K("replication"));
    SampleComponents(K("replication"));
    SampleCertificates(K("replication"));
  }

  lemma BareFacts()
    ensures Small(Bare) && !HasModule(Bare, Replication) && !IsModuleEnabled(Bare, Replication) && Tidy(Bare)
    ensures !HasModule(Bare, Observability) && !IsModuleEnabled(Bare, Observability)
  {
  }

  // Two replication entries, the first disabled.
  lemma ReplicationInput() returns (sc: Script, es: seq<Event>, w: World, k: Key)
    ensures Undisturbed(sc) && Quiet(sc, 0) && Sighted(sc, 0) && !Consistent(SplitReplicating, Replication)
    ensures Unserved(w) && w.cr.spec == SplitReplicating && k in Sample.replication
    ensures var v := History(Sample, sc, es, w); !v.cr.gone && v.cr.previous == Some(Bare) && k in v.objects
  {
    k := K("replication");
    Two(Replicates(false), Replicates(true));
    BareFacts();
    SmallPair(SplitReplicating, Bare);
    SampleReplication();
    UntidyReplicationOrphans(Sample, SplitReplicating, Bare, Release, k);
    sc, es, w := Ticks(Enough(Sample, SplitReplicating, Bare), false), [Reconciles, User(Edit(Bare)), Reconciles], NewResource(SplitReplicating);
    QuietTicks(Enough(Sample, SplitReplicating, Bare), false, 0);
  }

  // Replication disabled and the resource deleted before the next sync.
  lemma StrandedInput() returns (sc: Script, es: seq<Event>, w: World, k: Key)
    ensures Undisturbed(sc) && Quiet(sc, 0) && Sighted(sc, 0) && Tidy(Replicating) && Tidy(Bare)
    ensures Unserved(w) && w.cr.spec == Replicating && k in Sample.replication
    ensures var v := History(Sample, sc, es, w); v.cr.gone && v.cr.spec == Bare && Forced(Bare) && k in v.objects
  {
    k := K("replication");
    Lone(Replicates(true));
    BareFacts();
    SmallPair(Replicating, Bare);
    SmallWorks(Bare);
    SampleReplication();
    StrandedByDelete(Sample, Replicating, Bare, Release, k);
    sc, es, w := Ticks(Enough(Sample, Replicating, Bare), false),
                 [Reconciles, User(Edit(Bare)), User(Delete), Reconciles], NewResource(Replicating);
    QuietTicks(Enough(Sample, Replicating, Bare), false, 0);
  }

  lemma DaemonSetFacts(x: Watch)
    requires x.t == Sample && x.key == K("node-daemonset")
    ensures WellFormed(x) && DefaultsAgree(x) && Regular(x, Bare)
    ensures x.key !in RbacKeys(NodeRbac) + RbacKeys(ControllerRbac) + [K("params"), K("csi")]
  {
    SampleCertificates(x.key);
    SampleComponents(x.key);
    Modeless(x);
    BareFacts();
  }

  // A driver alone, removed while its DaemonSet cannot be read.
  lemma DaemonSetInput() returns (x: Watch, sc: Script, es: seq<Event>, w: World)
    ensures Setting(x, sc, es, w) && OfDriver(x.t, x.key)
    ensures var v := History(x.t, sc, es, w); v.cr.gone && Forced(v.cr.spec) && x.key in v.objects
  {
    x := Watch(Sample, c => SelfSigned, K("node-daemonset"));
    BareFacts();
    SmallPair(Bare, Bare);
    SmallWorks(Bare);
    DaemonSetFacts(x);
    BlindRemovalLeaves(x, Bare, Release);
    sc, es, w := Ticks(Enough(Sample, Bare, Bare), true), [Reconciles, User(Edit(Bare)), User(Delete), Reconciles], NewResource(Bare);
  }
}
