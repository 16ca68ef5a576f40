// What a run of an operation list leaves behind, and what the reconciler's lists hold.
module Operations {
  import opened Resource
  import opened Cluster
  import opened Api
  import opened Lifecycle

  // ---------- runs of operation lists ----------

  ghost predicate PutsOn(ops: seq<Op>, k: Key) { exists i :: 0 <= i < |ops| && ops[i].Put? && ops[i].key == k }

  ghost predicate RemovesOn(ops: seq<Op>, k: Key) { exists i :: 0 <= i < |ops| && Removes(ops[i]) && ops[i].key == k }

  // What user actions alone can turn c into: a newer revision, marked for deletion, or, when
  // nothing holds it, gone.
  ghost predicate Drift(c: Stored, d: Stored) {
    && d.previous == c.previous && d.config == c.config && d.finalizer == c.finalizer
    && (c.gone ==> d == c)
    && (d.gone && !c.gone ==> !c.finalizer)
    && d.revision >= c.revision
    && (d.revision == c.revision && !d.gone ==> d == c)
    && (c.deleting ==> d.deleting)
  }

  lemma DriftTransitive(a: Stored, b: Stored, c: Stored)
    requires Drift(a, b) && Drift(b, c)
    ensures Drift(a, c)
  {
  }

  lemma AdvanceDrift(sc: Script, w: World)
    ensures Drift(w.cr, Advance(sc, w).cr) && Advance(sc, w).history == w.history
  {
  }

  // An operation makes at most three calls.
  lemma StepCalls(sc: Script, op: Op, w: World)
    ensures var d := Run(sc, op, w).world;
            var w1 := Advance(sc, w);
            var w2 := Advance(sc, w1);
            d.history == w.history && w.clock <= d.clock <= w.clock + 3 &&
            (d.cr == w.cr || d.cr == w1.cr || d.cr == w2.cr || d.cr == Advance(sc, w2).cr)
  {
  }

  lemma StepDrift(sc: Script, op: Op, w: World)
    ensures Drift(w.cr, Run(sc, op, w).world.cr) && Run(sc, op, w).world.history == w.history
  {
    var w1 := Advance(sc, w);
    var w2 := Advance(sc, w1);
    StepCalls(sc, op, w);
    AdvanceDrift(sc, w);
    AdvanceDrift(sc, w1);
    AdvanceDrift(sc, w2);
    DriftTransitive(w.cr, w1.cr, w2.cr);
    DriftTransitive(w.cr, w2.cr, Advance(sc, w2).cr);
  }

  lemma {:induction false} RunDrift(sc: Script, ops: seq<Op>, w: World)
    ensures Drift(w.cr, RunAll(sc, ops, w).world.cr)
    ensures RunAll(sc, ops, w).world.history == w.history
    ensures w.clock <= RunAll(sc, ops, w).world.clock <= w.clock + 3 * |ops|
    decreases |ops|
  {
    if ops != [] {
      var d := Run(sc, ops[0], w);
      StepCalls(sc, ops[0], w);
      StepDrift(sc, ops[0], w);
      if d.ok {
        RunDrift(sc, ops[1..], d.world);
        DriftTransitive(w.cr, d.world.cr, RunAll(sc, ops[1..], d.world).world.cr);
      }
    }
  }

  lemma StepKeys(sc: Script, op: Op, w: World, k: Key)
    ensures var d := Run(sc, op, w);
            && (k in d.world.objects ==> k in w.objects || (op.Put? && op.key == k))
            && (k in w.objects ==> k in d.world.objects || (Removes(op) && op.key == k))
            && (d.ok ==> op != Abort)
            && (d.ok && op.Put? && op.key == k ==> k in d.world.objects)
            && (d.ok && op == Drop(k) ==> k !in d.world.objects)
            && (d.ok && op == Sweep(k) && !At(sc, w.clock).blind ==> k !in d.world.objects)
  {
  }

  lemma LaterPut(ops: seq<Op>, k: Key)
    requires ops != []
    ensures PutsOn(ops, k) <==> (ops[0].Put? && ops[0].key == k) || PutsOn(ops[1..], k)
  {
    var rest := ops[1..];
    if i :| 0 <= i < |ops| && ops[i].Put? && ops[i].key == k { assert i > 0 ==> rest[i - 1] == ops[i]; }
    if i :| 0 <= i < |rest| && rest[i].Put? && rest[i].key == k { assert ops[i + 1] == rest[i]; }
  }

  lemma LaterRemoval(ops: seq<Op>, k: Key)
    requires ops != []
    ensures RemovesOn(ops, k) <==> (Removes(ops[0]) && ops[0].key == k) || RemovesOn(ops[1..], k)
  {
    var rest := ops[1..];
    if i :| 0 <= i < |ops| && Removes(ops[i]) && ops[i].key == k { assert i > 0 ==> rest[i - 1] == ops[i]; }
    if i :| 0 <= i < |rest| && Removes(rest[i]) && rest[i].key == k { assert ops[i + 1] == rest[i]; }
  }

  // Nothing appears that no operation puts; nothing disappears that no operation removes.
  lemma {:induction false} RunKeys(sc: Script, ops: seq<Op>, w: World, k: Key)
    ensures var m := RunAll(sc, ops, w).world.objects;
            && (k in m ==> k in w.objects || PutsOn(ops, k))
            && (k in w.objects ==> k in m || RemovesOn(ops, k))
    decreases |ops|
  {
    if ops != [] {
      var d := Run(sc, ops[0], w);
      StepKeys(sc, ops[0], w, k);
      LaterPut(ops, k);
      LaterRemoval(ops, k);
      if d.ok { RunKeys(sc, ops[1..], d.world, k); }
    }
  }

  // A successful run did everything it lists: what it puts and does not remove is there, what
  // it removes and does not put is not, except a workload it was blind to.
  lemma {:induction false} RunSucceeds(sc: Script, ops: seq<Op>, w: World, k: Key)
    requires RunAll(sc, ops, w).ok
    ensures var m := RunAll(sc, ops, w).world.objects;
            && Abort !in ops
            && (PutsOn(ops, k) && !RemovesOn(ops, k) ==> k in m)
            && (Drop(k) in ops && !PutsOn(ops, k) ==> k !in m)
            && (Sweep(k) in ops && !PutsOn(ops, k) && Sighted(sc, w.clock) ==> k !in m)
    decreases |ops|
  {
    if ops != [] {
      var d, rest := Run(sc, ops[0], w), ops[1..];
      StepCalls(sc, ops[0], w);
      StepKeys(sc, ops[0], w, k);
      LaterPut(ops, k);
      LaterRemoval(ops, k);
      RunSucceeds(sc, rest, d.world, k);
      RunKeys(sc, rest, d.world, k);
      assert forall op :: op in ops <==> op == ops[0] || op in rest;
    }
  }

  // From here on no read of a workload fails with anything but NotFound.
  ghost predicate Sighted(sc: Script, clock: nat) { forall i :: clock <= i < |sc| ==> !sc[i].blind }

  // A completed list that never puts or drops k, but may sweep it: k stays exactly when it was
  // there and every read before its deletion was blind.
  lemma {:induction false} SweptIff(sc: Script, ops: seq<Op>, w: World, k: Key)
    requires RunAll(sc, ops, w).ok && !PutsOn(ops, k) && Drop(k) !in ops
    ensures k in RunAll(sc, ops, w).world.objects <==>
              k in w.objects && forall i :: 0 <= i < |ops| && ops[i] == Sweep(k) ==> At(sc, RunAll(sc, ops[..i], w).world.clock).blind
    decreases |ops|
  {
    if ops != [] {
      var d, rest := Run(sc, ops[0], w), ops[1..];
      assert forall i :: 0 <= i < |rest| ==> rest[i] == ops[i + 1];
      SweptIff(sc, rest, d.world, k);
      assert RunAll(sc, ops[..0], w).world == w;
      forall i | 0 <= i < |rest| ensures RunAll(sc, ops[..i + 1], w) == RunAll(sc, rest[..i], d.world) {
        assert ops[..i + 1][0] == ops[0] && ops[..i + 1][1..] == rest[..i];
      }
      assert ops[0] in ops;
      SweptStep(sc, ops[0], w, k);
      LaterBlind(sc, ops, w, k);
    }
  }

  lemma SweptStep(sc: Script, op: Op, w: World, k: Key)
    requires Run(sc, op, w).ok && !(op.Put? && op.key == k) && op != Drop(k)
    ensures k in Run(sc, op, w).world.objects <==> k in w.objects && (op == Sweep(k) ==> At(sc, w.clock).blind)
  {
  }

  lemma LaterBlind(sc: Script, ops: seq<Op>, w: World, k: Key)
    requires ops != [] && Run(sc, ops[0], w).ok
    requires forall i :: 0 <= i < |ops| - 1 ==> RunAll(sc, ops[..i + 1], w) == RunAll(sc, ops[1..][..i], Run(sc, ops[0], w).world)
    ensures (forall i :: 0 <= i < |ops| && ops[i] == Sweep(k) ==> At(sc, RunAll(sc, ops[..i], w).world.clock).blind) <==>
              (ops[0] == Sweep(k) ==> At(sc, w.clock).blind) &&
              forall i :: 0 <= i < |ops[1..]| && ops[1..][i] == Sweep(k) ==>
                At(sc, RunAll(sc, ops[1..][..i], Run(sc, ops[0], w).world).world.clock).blind
  {
    assert RunAll(sc, ops[..0], w).world == w;
    assert forall i :: 0 <= i < |ops[1..]| ==> ops[1..][i] == ops[i + 1];
    assert forall i :: 1 <= i < |ops| ==> ops[i] == ops[1..][i - 1];
    forall i | 1 <= i < |ops| ensures RunAll(sc, ops[..i], w) == RunAll(sc, ops[1..][..i - 1], Run(sc, ops[0], w).world) {
      assert ops[..(i - 1) + 1] == ops[..i];
    }
  }

  // ---------- contents ----------

  // m has k with at least the fields of b.
  ghost predicate Holds(m: Objects, k: Key, b: Body) { k in m && forall f :: f in b ==> f in m[k] && m[k][f] == b[f] }

  // Writes whose success means the body is there: not a create-only one, and not a merge whose
  // refusal is only logged.
  predicate Strong(op: Op) { op.Put? && !op.style.CreateOnly? && !op.style.Lenient? }

  lemma StepHolds(sc: Script, op: Op, w: World, k: Key, b: Body)
    requires Run(sc, op, w).ok && !(Removes(op) && op.key == k) && (op.Put? && op.key == k ==> op.body == b)
    ensures Holds(w.objects, k, b) || (Strong(op) && op.key == k) ==> Holds(Run(sc, op, w).world.objects, k, b)
    ensures Replaces(op) && op.key == k ==> k in Run(sc, op, w).world.objects && Run(sc, op, w).world.objects[k] == b
    ensures !(op.Put? && op.key == k) ==> Same(Run(sc, op, w).world.objects, w.objects, k)
  {
  }

  // After a completed list whose writes to k all carry b, one strong write is enough for k to
  // hold b, and if all of them replace, k is b.
  lemma {:induction false} RunHolds(sc: Script, ops: seq<Op>, w: World, k: Key, b: Body)
    requires RunAll(sc, ops, w).ok && !RemovesOn(ops, k)
    requires forall i :: 0 <= i < |ops| && ops[i].Put? && ops[i].key == k ==> ops[i].body == b
    ensures Holds(w.objects, k, b) || (exists i :: 0 <= i < |ops| && Strong(ops[i]) && ops[i].key == k) ==>
              Holds(RunAll(sc, ops, w).world.objects, k, b)
    ensures (forall i :: 0 <= i < |ops| && ops[i].Put? && ops[i].key == k ==> Replaces(ops[i])) &&
            (PutsOn(ops, k) || (k in w.objects && w.objects[k] == b)) ==>
              k in RunAll(sc, ops, w).world.objects && RunAll(sc, ops, w).world.objects[k] == b
    decreases |ops|
  {
    if ops != [] {
      var d, rest := Run(sc, ops[0], w), ops[1..];
      assert forall i :: 0 <= i < |rest| ==> rest[i] == ops[i + 1];
      assert forall i :: 1 <= i < |ops| ==> ops[i] == rest[i - 1];
      LaterRemoval(ops, k);
      StepHolds(sc, ops[0], w, k, b);
      RunHolds(sc, rest, d.world, k, b);
      if PutsOn(ops, k) && !(ops[0].Put? && ops[0].key == k) {
        var i :| 0 <= i < |ops| && ops[i].Put? && ops[i].key == k;
        assert rest[i - 1].Put? && rest[i - 1].key == k;
      }
    }
  }

  // ---------- one object watched over a run ----------

  // key is the object; modes says, for every component, in which mode its certificates are
  // issued during the run.
  datatype Watch = Watch(t: Templates, modes: string -> Mode, key: Key)

  ghost predicate OfComponent(x: Watch, c: string) {
    x.key in Keys(ComponentSlots(x.t, c)) || x.key in CertificateKeys(x.t, x.modes(c), c)
  }

  // The object belongs to a module the spec enables.
  ghost predicate Owned(x: Watch, s: Spec) {
    || (ReplicaEnabled(s) && x.key in x.t.replication)
    || exists c :: IsComponentEnabled(s, Observability, c) && OfComponent(x, c)
  }

  // The object belongs to the replication controller or to an observability component.
  ghost predicate Managed(x: Watch) {
    x.key in x.t.replication || exists c :: OfComponent(x, c)
  }

  // The objects of the driver.
  ghost predicate OfDriver(t: Templates, k: Key) {
    match t.driver
    case Csi(n, c, cm, csi, ds, dp) => OfRbac(n, k) || OfRbac(c, k) || k in {cm, csi, ds, dp}
    case Cosi(c, cm, dp) => OfRbac(c, k) || k in {cm, dp}
  }

  ghost predicate OfRbac(r: Rbac, k: Key) {
    k in {r.account, r.clusterRole, r.clusterRoleBinding} || r.role == Some(k) || r.roleBinding == Some(k)
  }

  // The driver objects a sync writes: all of them, but for the object-storage driver not the
  // namespaced role and binding.
  ghost predicate Deploys(t: Templates, k: Key) {
    match t.driver
    case Csi(n, c, cm, csi, ds, dp) => OfRbac(n, k) || OfRbac(c, k) || k in {cm, csi, ds, dp}
    case Cosi(c, cm, dp) => k in {c.account, c.clusterRole, c.clusterRoleBinding, cm, dp}
  }

  ghost predicate IsAccount(t: Templates, k: Key) {
    k == t.driver.controller.account || (t.driver.Csi? && k == t.driver.node.account)
  }

  ghost predicate IsWorkload(t: Templates, k: Key) {
    k == t.driver.deployment || (t.driver.Csi? && k == t.driver.daemonSet)
  }

  // The driver's objects and the replication CRDs are not module objects.
  ghost predicate WellFormed(x: Watch) { OfDriver(x.t, x.key) || x.key in x.t.crds ==> !Managed(x) }

  // A metrics Deployment: deleted only if it can be read.
  ghost predicate Swept(t: Templates, k: Key) {
    exists c :: c in t.components && Slot(DeployApply, k) in t.components[c]
  }

  // Nothing can make the operator pass over the object when it deletes it.
  ghost predicate Firm(x: Watch, sc: Script) { Sighted(sc, 0) || !Swept(x.t, x.key) }

  function ModeIn(s: Spec, c: string): Mode {
    var m := FirstModule(s.modules, Observability);
    if m.None? then SelfSigned else ModeOf(m.value.components, c)
  }

  ghost predicate ModeFits(x: Watch, mode: Mode, c: string) {
    mode.Half? || (x.key in CertificateKeys(x.t, mode, c) <==> x.key in CertificateKeys(x.t, x.modes(c), c))
  }

  // The spec issues certificates in the watched modes, as far as the object is concerned.
  ghost predicate Agrees(x: Watch, s: Spec) {
    forall c :: IsComponentEnabled(s, Observability, c) ==> ModeFits(x, ModeIn(s, c), c)
  }

  // Both lookups agree on the modules the cleanup compares; unique names are enough for it.
  ghost predicate Tidy(s: Spec) { Consistent(s, Replication) && Consistent(s, Observability) }

  ghost predicate Regular(x: Watch, s: Spec) { Tidy(s) && Agrees(x, s) }

  ghost predicate RegularAction(x: Watch, a: Action) { a.Edit? ==> Regular(x, a.spec) }

  // Every spec the user writes during the run is regular.
  ghost predicate Disciplined(x: Watch, sc: Script) { forall i :: 0 <= i < |sc| ==> RegularAction(x, sc[i].user) }

  lemma {:induction false} RunRegular(x: Watch, sc: Script, ops: seq<Op>, w: World)
    requires Disciplined(x, sc) && Regular(x, w.cr.spec)
    ensures Regular(x, RunAll(sc, ops, w).world.cr.spec)
    decreases |ops|
  {
    if ops != [] {
      var w1 := Advance(sc, w);
      var w2 := Advance(sc, w1);
      StepCalls(sc, ops[0], w);
      var d := Run(sc, ops[0], w);
      AdvanceRegular(x, sc, w);
      AdvanceRegular(x, sc, w1);
      AdvanceRegular(x, sc, w2);
      if d.ok { RunRegular(x, sc, ops[1..], d.world); }
    }
  }

  lemma AdvanceRegular(x: Watch, sc: Script, w: World)
    requires Disciplined(x, sc) && Regular(x, w.cr.spec)
    ensures Regular(x, Advance(sc, w).cr.spec)
  {
  }

  // ---------- what the operation lists hold ----------

  lemma RewriteHolds(t: Templates, deleting: bool, s: Spec, slots: seq<Slot>, op: Op)
    requires op in Rewrite(t, deleting, s, slots)
    ensures op.key in Keys(slots)
    ensures if deleting then Removes(op) && (op.Sweep? ==> Slot(DeployApply, op.key) in slots) else op.Put? && op.body == t.render(s, op.key)
  {
    var ops := Rewrite(t, deleting, s, slots);
    var i :| 0 <= i < |ops| && ops[i] == op;
    assert Keys(slots)[i] == op.key && slots[i] in slots;
  }

  // The operation writes k, or removes it when deleting.
  predicate Hits(deleting: bool, op: Op, k: Key) { (if deleting then Removes(op) else op.Put?) && op.key == k }

  // The operation a list of slots has for a key.
  lemma SlotOp(t: Templates, deleting: bool, s: Spec, slots: seq<Slot>, k: Key) returns (op: Op)
    requires k in Keys(slots)
    ensures op in Rewrite(t, deleting, s, slots) && Hits(deleting, op, k)
  {
    var i :| 0 <= i < |slots| && Keys(slots)[i] == k;
    op := Rewrite(t, deleting, s, slots)[i];
  }

  // The operations of one component.
  function OneComponent(t: Templates, deleting: bool, s: Spec, c: string): seq<Op> {
    if !Supported(c) then [Abort]
    else (if Metrics(c) then Lookup(s) else []) + Rewrite(t, deleting, s, ComponentSlots(t, c))
  }

  lemma {:induction false} ComponentOpsHold(t: Templates, deleting: bool, s: Spec, cs: seq<string>, op: Op)
    ensures op in ComponentOps(t, deleting, s, cs) <==> exists c :: c in cs && op in OneComponent(t, deleting, s, c)
  {
    if cs != [] {
      ComponentOpsHold(t, deleting, s, cs[1..], op);
      assert ComponentOps(t, deleting, s, cs) == OneComponent(t, deleting, s, cs[0]) + ComponentOps(t, deleting, s, cs[1..]);
      assert forall c :: c in cs <==> c == cs[0] || c in cs[1..];
    }
  }

  lemma {:induction false} CertificateOpsHold(t: Templates, deleting: bool, s: Spec, all: seq<Component>, cs: seq<Component>, op: Op)
    ensures op in CertificateOps(t, deleting, s, all, cs) <==> exists c :: c in cs && op in CertificateOp(t, deleting, s, all, c)
  {
    if cs != [] {
      CertificateOpsHold(t, deleting, s, all, cs[1..], op);
      assert forall c :: c in cs <==> c == cs[0] || c in cs[1..];
    }
  }

  lemma SlotKeys(style: Style, ks: seq<Key>)
    ensures Keys(Slots(style, ks)) == ks
    ensures !style.DeployApply? ==> forall k :: Slot(DeployApply, k) !in Slots(style, ks)
  {
  }

  // The switched components of the enabled observability entry, as both lookups see them.
  lemma ComponentLookup(s: Spec, c: string)
    requires Consistent(s, Observability) && IsModuleEnabled(s, Observability)
    ensures var cs := FirstModule(s.modules, Observability).value.components;
            IsComponentEnabled(s, Observability, c) <==> exists e :: e in cs && e.name == c && e.enabled
  {
    var cs := FirstModule(s.modules, Observability).value.components;
    if Switched(cs, c) {
      var i :| 0 <= i < |cs| && cs[i].name == c && cs[i].enabled;
      assert cs[i] in cs;
    }
    if e :| e in cs && e.name == c && e.enabled {
      var i :| 0 <= i < |cs| && cs[i] == e;
      assert Switched(cs, c);
    }
  }

  // What any operation of reconcileObservability is, whatever the spec.
  lemma ObservabilityKinds(t: Templates, deleting: bool, s: Spec, components: seq<string>, op: Op)
    requires op in ObservabilityOps(t, deleting, s, components)
    ensures op == Abort || op == Gate ||
            (if deleting then Removes(op) && (op.Sweep? ==> Swept(t, op.key)) else op.Put? && op.body == t.render(s, op.key))
  {
    if GetVersion(t, s).Ok? && op != Abort && op != Gate {
      var m := EnabledModule(s.modules, Observability);
      var cs := if components == [] && m.Some? then Retired(s, None, m.value.components) else components;
      ComponentOpsHold(t, deleting, s, cs, op);
      if op in ComponentOps(t, deleting, s, cs) {
        var c :| c in cs && op in OneComponent(t, deleting, s, c);
        ComponentOp(t, deleting, s, c, op);
      } else {
        var first := FirstModule(s.modules, Observability).value.components;
        CertificateOpsHold(t, deleting, s, first, first, op);
        var e :| e in first && op in CertificateOp(t, deleting, s, first, e);
        IssueOp(t, deleting, s, first, e, op);
      }
    }
  }

  lemma ComponentOp(t: Templates, deleting: bool, s: Spec, c: string, op: Op)
    requires op in OneComponent(t, deleting, s, c) && op != Abort && op != Gate
    ensures op.key in Keys(ComponentSlots(t, c))
    ensures if deleting then Removes(op) && (op.Sweep? ==> Swept(t, op.key)) else op.Put? && op.body == t.render(s, op.key)
  {
    RewriteHolds(t, deleting, s, ComponentSlots(t, c), op);
  }

  lemma IssueOp(t: Templates, deleting: bool, s: Spec, all: seq<Component>, e: Component, op: Op)
    requires op in CertificateOp(t, deleting, s, all, e) && op != Abort
    ensures e.enabled && Certified(e.name) && !ModeOf(all, e.name).Half?
    ensures op.key in CertificateKeys(t, ModeOf(all, e.name), e.name)
    ensures if deleting then op.Drop? else op.Put? && op.body == t.render(s, op.key)
  {
    var ks := CertificateKeys(t, ModeOf(all, e.name), e.name);
    RewriteHolds(t, deleting, s, Slots(Lenient, ks), op);
    SlotKeys(Lenient, ks);
  }

  // An operation of reconcileObservability on the object belongs to a component the spec enables.
  lemma ObservabilityOnly(x: Watch, deleting: bool, s: Spec, components: seq<string>, op: Op)
    requires Regular(x, s) && IsModuleEnabled(s, Observability)
    requires forall c :: c in components ==> IsComponentEnabled(s, Observability, c)
    requires op in ObservabilityOps(x.t, deleting, s, components) && op != Abort && op != Gate && op.key == x.key
    ensures exists c :: IsComponentEnabled(s, Observability, c) && OfComponent(x, c)
  {
    var m := EnabledModule(s.modules, Observability);
    var cs := if components == [] then Retired(s, None, m.value.components) else components;
    ComponentOpsHold(x.t, deleting, s, cs, op);
    if op in ComponentOps(x.t, deleting, s, cs) {
      var c :| c in cs && op in OneComponent(x.t, deleting, s, c);
      ComponentOp(x.t, deleting, s, c, op);
      assert OfComponent(x, c);
    } else {
      var first := FirstModule(s.modules, Observability).value.components;
      CertificateOpsHold(x.t, deleting, s, first, first, op);
      var e :| e in first && op in CertificateOp(x.t, deleting, s, first, e);
      IssueOp(x.t, deleting, s, first, e, op);
      ComponentLookup(s, e.name);
      assert ModeFits(x, ModeIn(s, e.name), e.name);
      assert OfComponent(x, e.name);
    }
  }

  // The component that is asked for is among those the list is made from.
  lemma ComponentAsked(s: Spec, components: seq<string>, c: string)
    requires IsComponentEnabled(s, Observability, c) && (components == [] || c in components)
    ensures var m := EnabledModule(s.modules, Observability);
            c in (if components == [] then Retired(s, None, m.value.components) else components)
  {
    NamedIn(EnabledModule(s.modules, Observability).value.components, c);
  }

  // The parts of an observability list that does not abort.
  lemma ObservabilityParts(t: Templates, deleting: bool, s: Spec, components: seq<string>, op: Op)
    requires IsModuleEnabled(s, Observability) && Abort !in ObservabilityOps(t, deleting, s, components)
    ensures var m := EnabledModule(s.modules, Observability);
            var cs := if components == [] then Retired(s, None, m.value.components) else components;
            && HasModule(s, Observability)
            && Abort !in ComponentOps(t, deleting, s, cs)
            && (op in ComponentOps(t, deleting, s, cs) ==> op in ObservabilityOps(t, deleting, s, components))
  {
    assert Abort in [Abort];
  }

  lemma ObservabilityCerts(t: Templates, deleting: bool, s: Spec, components: seq<string>, op: Op)
    requires HasModule(s, Observability) && Abort !in ObservabilityOps(t, deleting, s, components)
    ensures var first := FirstModule(s.modules, Observability).value.components;
            && Abort !in CertificateOps(t, deleting, s, first, first)
            && (op in CertificateOps(t, deleting, s, first, first) ==> op in ObservabilityOps(t, deleting, s, components))
  {
    assert Abort in [Abort];
  }

  // Unless it aborts, reconcileObservability reaches the object if it belongs to a component
  // it is asked for.
  lemma ObservabilityReaches(x: Watch, deleting: bool, s: Spec, components: seq<string>, c: string) returns (op: Op)
    requires Regular(x, s) && IsComponentEnabled(s, Observability, c) && OfComponent(x, c)
    requires components == [] || c in components
    requires Abort !in ObservabilityOps(x.t, deleting, s, components)
    ensures op in ObservabilityOps(x.t, deleting, s, components) && Hits(deleting, op, x.key)
  {
    if x.key in Keys(ComponentSlots(x.t, c)) {
      op := ComponentReaches(x.t, deleting, s, components, c, x.key);
    } else {
      op := CertificateReaches(x, deleting, s, components, c);
    }
  }

  lemma ComponentReaches(t: Templates, deleting: bool, s: Spec, components: seq<string>, c: string, k: Key) returns (op: Op)
    requires IsComponentEnabled(s, Observability, c) && k in Keys(ComponentSlots(t, c))
    requires components == [] || c in components
    requires Abort !in ObservabilityOps(t, deleting, s, components)
    ensures op in ObservabilityOps(t, deleting, s, components) && Hits(deleting, op, k)
  {
    var m := EnabledModule(s.modules, Observability);
    var cs := if components == [] then Retired(s, None, m.value.components) else components;
    ComponentAsked(s, components, c);
    op := SlotOp(t, deleting, s, ComponentSlots(t, c), k);
    ObservabilityParts(t, deleting, s, components, op);
    assert op in OneComponent(t, deleting, s, c);
    ComponentOpsHold(t, deleting, s, cs, op);
  }

  lemma CertificateReaches(x: Watch, deleting: bool, s: Spec, components: seq<string>, c: string) returns (op: Op)
    requires Regular(x, s) && IsComponentEnabled(s, Observability, c) && x.key in CertificateKeys(x.t, x.modes(c), c)
    requires Abort !in ObservabilityOps(x.t, deleting, s, components)
    ensures op in ObservabilityOps(x.t, deleting, s, components) && Hits(deleting, op, x.key)
  {
    var first := FirstModule(s.modules, Observability).value.components;
    ComponentLookup(s, c);
    var e :| e in first && e.name == c && e.enabled;
    CertificateOpsHold(x.t, deleting, s, first, first, Abort);
    ObservabilityCerts(x.t, deleting, s, components, Abort);
    assert ModeOf(first, c).Half? ==> Abort in CertificateOp(x.t, deleting, s, first, e);
    assert ModeFits(x, ModeIn(s, c), c);
    var ks := CertificateKeys(x.t, ModeOf(first, c), c);
    SlotKeys(Lenient, ks);
    op := SlotOp(x.t, deleting, s, Slots(Lenient, ks), x.key);
    assert op in CertificateOp(x.t, deleting, s, first, e);
    CertificateOpsHold(x.t, deleting, s, first, first, op);
    ObservabilityCerts(x.t, deleting, s, components, op);
  }

  // The replication list.
  lemma ReplicationOnly(t: Templates, deleting: bool, s: Spec, op: Op)
    requires op in ReplicationOps(t, deleting, s) && op != Abort && op != Gate
    ensures op.key in t.replication
    ensures if deleting then op.Drop? else op.Put? && op.body == t.render(s, op.key)
  {
    RewriteHolds(t, deleting, s, Slots(Lenient, t.replication), op);
    SlotKeys(Lenient, t.replication);
  }

  lemma ReplicationReaches(t: Templates, deleting: bool, s: Spec, k: Key) returns (op: Op)
    requires k in t.replication && Abort !in ReplicationOps(t, deleting, s)
    ensures op in ReplicationOps(t, deleting, s) && Hits(deleting, op, k) && !op.Sweep?
  {
    assert Abort in [Abort];
    SlotKeys(Lenient, t.replication);
    op := SlotOp(t, deleting, s, Slots(Lenient, t.replication), k);
    ReplicationOnly(t, deleting, s, op);
  }

  lemma NamedIn(cs: seq<Component>, c: string)
    requires Switched(cs, c)
    ensures exists i :: 0 <= i < |cs| && cs[i].name == c
  {
  }

  ghost function ThePut(ops: seq<Op>, k: Key): (op: Op)
    requires PutsOn(ops, k)
    ensures op in ops && op.Put? && op.key == k
  {
    var i :| 0 <= i < |ops| && ops[i].Put? && ops[i].key == k;
    ops[i]
  }

  lemma SlotsHold(style: Style, ks: seq<Key>)
    ensures forall x :: x in Slots(style, ks) <==> x.style == style && x.key in ks
  {
    forall k | k in ks ensures Slot(style, k) in Slots(style, ks) {
      var i :| 0 <= i < |ks| && ks[i] == k;
      assert Slots(style, ks)[i] == Slot(style, k);
    }
  }

  lemma RbacKeysHold(r: Rbac, k: Key)
    ensures k in RbacKeys(r) <==> OfRbac(r, k)
  {
  }

  // Which slots a driver has, in whatever order: accounts are only created, workloads applied,
  // and everything else replaced.
  ghost predicate HasSlot(d: Driver, x: Slot) {
    match d
    case Csi(n, c, cm, csi, ds, dp) =>
      match x.style {
        case CreateOnly => x.key in {n.account, c.account}
        case Verified => x.key in {n.clusterRole, c.clusterRole} || n.role == Some(x.key) || c.role == Some(x.key)
        case Plain => x.key in {n.clusterRoleBinding, c.clusterRoleBinding, csi, cm} || n.roleBinding == Some(x.key) || c.roleBinding == Some(x.key)
        case DeployApply => x.key == dp
        case DaemonApply => x.key == ds
        case Lenient => false
      }
    case Cosi(c, cm, dp) =>
      match x.style {
        case CreateOnly => x.key == c.account
        case Verified => x.key == c.clusterRole
        case Plain => x.key in {c.clusterRoleBinding, cm}
        case DeployApply => x.key == dp
        case DaemonApply => false
        case Lenient => false
      }
  }

  lemma DriverSlotsAre(d: Driver, x: Slot)
    ensures x in DriverSlots(d) <==> HasSlot(d, x)
  {
    match d
    case Csi(n, c, cm, csi, ds, dp) => {
      SlotsHold(CreateOnly, [n.account, c.account]);
      SlotsHold(Verified, [n.clusterRole, c.clusterRole]);
      SlotsHold(Plain, [n.clusterRoleBinding, c.clusterRoleBinding]);
      SlotsHold(Verified, Opt(n.role) + Opt(c.role));
      SlotsHold(Plain, Opt(n.roleBinding) + Opt(c.roleBinding));
      SlotsHold(Plain, [csi, cm]);
    }
    case Cosi(c, cm, dp) => {}
  }

  lemma DriverSlotsHold(t: Templates, x: Slot)
    requires x in DriverSlots(t.driver)
    ensures OfDriver(t, x.key) && Deploys(t, x.key)
  {
    DriverSlotsAre(t.driver, x);
  }

  // The slot of a driver object: it insists unless the object is an account, and replaces unless
  // it is a workload.
  lemma DriverSlot(t: Templates, k: Key) returns (x: Slot)
    requires Deploys(t, k)
    ensures x in DriverSlots(t.driver) && x.key == k && !x.style.Lenient?
    ensures !IsAccount(t, k) ==> !x.style.CreateOnly?
  {
    x := if IsWorkload(t, k) then Slot(if k == t.driver.deployment then DeployApply else DaemonApply, k)
         else if IsAccount(t, k) then Slot(CreateOnly, k)
         else if HasSlot(t.driver, Slot(Verified, k)) then Slot(Verified, k)
         else Slot(Plain, k);
    DriverSlotsAre(t.driver, x);
  }

  lemma DriverPuts(t: Templates, s: Spec, k: Key)
    ensures PutsOn(PutAll(t, s, DriverSlots(t.driver)), k) <==> k in Keys(DriverSlots(t.driver))
    ensures PutsOn(PutAll(t, s, DriverSlots(t.driver)), k) ==> OfDriver(t, k)
  {
    var slots := DriverSlots(t.driver);
    var ops := PutAll(t, s, slots);
    if k in Keys(slots) { var op := SlotOp(t, false, s, slots, k); }
    if PutsOn(ops, k) {
      var i :| 0 <= i < |ops| && ops[i].Put? && ops[i].key == k;
      assert Keys(slots)[i] == k;
      DriverSlotsHold(t, slots[i]);
    }
  }

  lemma DriverDrops(t: Templates, k: Key)
    ensures OfDriver(t, k) ==> Drop(k) in DriverRemovals(t.driver) || Sweep(k) in DriverRemovals(t.driver)
    ensures forall op :: op in DriverRemovals(t.driver) ==> Removes(op) && OfDriver(t, op.key)
  {
    match t.driver
    case Csi(n, c, cm, csi, ds, dp) => {
      var ks := RbacKeys(n) + RbacKeys(c) + [cm, csi];
      DropsHold(ks, k);
      RbacKeysHold(n, k);
      RbacKeysHold(c, k);
      assert DriverRemovals(t.driver) == DropAll(ks) + [Sweep(ds), Sweep(dp)];
    }
    case Cosi(c, cm, dp) => {
      DropsHold(RbacKeys(c) + [cm], k);
      RbacKeysHold(c, k);
      assert DriverRemovals(t.driver) == DropAll(RbacKeys(c) + [cm]) + [Sweep(dp)];
    }
  }

  lemma DropsHold(ks: seq<Key>, k: Key)
    ensures k in ks <==> Drop(k) in DropAll(ks)
    ensures forall op :: op in DropAll(ks) ==> op.Drop? && op.key in ks
  {
    if k in ks {
      var i :| 0 <= i < |ks| && ks[i] == k;
      assert DropAll(ks)[i] == Drop(k);
    }
  }
}
