// Calls against the API server. Every call consumes one tick of a script that an adversary
// wrote: what the user does just before the call, and whether the call fails.
module Api {
  import opened Resource
  import opened Cluster

  datatype Action = Nothing | Edit(spec: Spec) | Delete

  datatype Error = Conflict | Forbidden | Invalid | Unavailable

  // Lost: the call took effect, but the caller sees an error.
  datatype Fault = Clear | Refused(why: Error) | Lost

  // blind: a read of a DaemonSet or Deployment during removal fails with something other
  // than NotFound.
  datatype Tick = Tick(user: Action, fault: Fault, blind: bool)
  type Script = seq<Tick>

  // The stored custom resource. Once gone, the other fields keep what was stored last.
  datatype Stored = Stored(gone: bool, spec: Spec, revision: nat, deleting: bool, finalizer: bool,
                           previous: Option<Spec>, config: Option<string>)

  // One change of the recorded config version.
  datatype Hop = Hop(spec: Spec, from: Option<string>, to: Option<string>)

  datatype World = World(objects: Objects, cr: Stored, clock: nat, history: seq<Hop>)

  function At(sc: Script, clock: nat): Tick {
    if clock < |sc| then sc[clock] else Tick(Nothing, Clear, false)
  }

  // An object without finalizers disappears on delete; with one it is only marked.
  function Acts(cr: Stored, a: Action): Stored {
    if cr.gone || a.Nothing? then cr
    else if a.Edit? then cr.(spec := a.spec, revision := cr.revision + 1)
    else if cr.finalizer then cr.(deleting := true, revision := cr.revision + 1)
    else cr.(gone := true)
  }

  function Advance(sc: Script, w: World): World {
    w.(cr := Acts(w.cr, At(sc, w.clock).user), clock := w.clock + 1)
  }

  datatype Reply = Found | Missing | Failed

  function Read(sc: Script, w: World, k: Key): Reply {
    if !At(sc, w.clock).fault.Clear? then Failed else if k in w.objects then Found else Missing
  }

  datatype Wrote = Wrote(world: World, error: Option<Error>)

  function Write(sc: Script, w: World, m: Objects): Wrote {
    match At(sc, w.clock).fault
    case Clear => Wrote(Advance(sc, w).(objects := m), None)
    case Refused(e) => Wrote(Advance(sc, w), Some(e))
    case Lost => Wrote(Advance(sc, w).(objects := m), Some(Unavailable))
  }

  datatype Done = Done(world: World, ok: bool)

  // One operation, call by call.
  function Run(sc: Script, op: Op, w: World): Done {
    var w1 := Advance(sc, w);
    match op
    case Put(style, k, b) =>
      var found := Read(sc, w, k);
      if found.Failed? && !style.DeployApply? then Done(w1, false)
      else if style.CreateOnly? && found.Found? then Done(w1, true)
      else
        var wr := Write(sc, w1, Effect(op, w.objects));
        if style.Lenient? && found.Found? then
          Done(wr.world, wr.error.None? || wr.error.value.Forbidden? || wr.error.value.Invalid?)
        else if wr.error.Some? then Done(wr.world, false)
        else if style.Verified? && found.Missing? then
          Done(Advance(sc, wr.world), Read(sc, wr.world, k).Found?)
        else Done(wr.world, true)
    case Drop(k) =>
      var found := Read(sc, w, k);
      if found.Failed? then Done(w1, false)
      else if found.Missing? then Done(w1, true)
      else
        var wr := Write(sc, w1, w.objects - {k});
        Done(wr.world, wr.error.None?)
    case Sweep(k) =>
      if At(sc, w.clock).blind || k !in w.objects then Done(w1, true)
      else
        var wr := Write(sc, w1, w.objects - {k});
        Done(wr.world, wr.error.None?)
    case Gate => Done(w1, At(sc, w.clock).fault.Clear?)
    case Abort => Done(w, false)
  }

  // A list of operations, stopping at the first that fails.
  function RunAll(sc: Script, ops: seq<Op>, w: World): Done {
    if ops == [] then Done(w, true)
    else
      var d := Run(sc, ops[0], w);
      if d.ok then RunAll(sc, ops[1..], d.world) else d
  }

  lemma {:induction false} RunAllConcat(sc: Script, a: seq<Op>, b: seq<Op>, w: World)
    ensures RunAll(sc, a + b, w) ==
            (var d := RunAll(sc, a, w); if d.ok then RunAll(sc, b, d.world) else d)
  {
    if a == [] {
      assert a + b == b;
    } else {
      assert (a + b)[1..] == a[1..] + b;
      var d := Run(sc, a[0], w);
      if d.ok { RunAllConcat(sc, a[1..], b, d.world); }
    }
  }

  // One operation either has its clean effect or, when it fails or may be passed over, none.
  lemma RunStep(sc: Script, op: Op, w: World)
    ensures var d := Run(sc, op, w);
            || d.world.objects == Effect(op, w.objects)
            || (d.world.objects == w.objects && (d.ok ==> Skippable(op, w.objects)))
  {
    if (op.Drop? || op.Sweep?) && op.key !in w.objects {
      assert w.objects - {op.key} == w.objects;
    }
  }

  // However the calls fail, a run stops at a place Partial describes.
  lemma {:induction false} RunIsPartial(sc: Script, ops: seq<Op>, w: World)
    ensures Partial(ops, w.objects, RunAll(sc, ops, w).world.objects)
    decreases |ops|
  {
    if ops != [] {
      var d := Run(sc, ops[0], w);
      RunStep(sc, ops[0], w);
      if d.ok {
        RunIsPartial(sc, ops[1..], d.world);
      } else {
        assert Partial(ops[1..], d.world.objects, d.world.objects);
      }
    }
  }

  // The cluster after any number of failed attempts of the same sync.
  function Attempts(sc: Script, ops: seq<Op>, w: World, n: nat): World {
    if n == 0 then w else RunAll(sc, ops, Attempts(sc, ops, w, n - 1)).world
  }

  // However many attempts stopped anywhere, one clean run ends where it would have ended
  // without them.
  lemma {:induction false} SyncIsRestartable(sc: Script, ops: seq<Op>, w: World, n: nat)
    ensures EffectAll(ops, Attempts(sc, ops, w, n).objects) == EffectAll(ops, w.objects)
  {
    if n > 0 {
      SyncIsRestartable(sc, ops, w, n - 1);
      var v := Attempts(sc, ops, w, n - 1);
      RunIsPartial(sc, ops, v);
      Restartable(ops, v.objects, RunAll(sc, ops, v).world.objects);
    }
  }

  // A run whose calls all succeed reports success and has the clean effect.
  lemma {:induction false} CleanRun(sc: Script, ops: seq<Op>, w: World)
    requires forall i :: w.clock <= i < |sc| ==> sc[i].fault.Clear? && !sc[i].blind
    requires Abort !in ops
    ensures RunAll(sc, ops, w).ok
    ensures RunAll(sc, ops, w).world.objects == EffectAll(ops, w.objects)
    decreases |ops|
  {
    if ops != [] {
      var d := Run(sc, ops[0], w);
      assert ops[0] != Abort;
      assert d.ok && d.world.objects == Effect(ops[0], w.objects);
      CleanRun(sc, ops[1..], d.world);
    }
  }
}
