// The cluster as a map of objects, the writes the operator issues against it,
// and why a sync that stopped anywhere can simply be run again.
module Cluster {

  datatype Key = Key(kind: string, namespace: string, name: string)
  type Body = map<string, string>
  type Objects = map<Key, Body>

  // How a sync helper writes an object that is already there.
  //   CreateOnly  - SyncServiceAccount leaves it alone
  //   Verified    - SyncClusterRole and SyncRole replace it, and read back after a create
  //   Plain       - the bindings, ConfigMap, CSIDriver and ApplyCTRLObject replace it
  //   DaemonApply - SyncDaemonset, a server-side apply that gives up on a failed read
  //   DeployApply - SyncDeployment, a server-side apply that ignores a failed read
  //   Lenient     - ApplyObject, a merge whose Forbidden and Invalid updates are only logged
  datatype Style = CreateOnly | Verified | Plain | DaemonApply | DeployApply | Lenient

  // Drop is DeleteObject; Sweep removes a workload and skips it when it cannot be read;
  // Gate is a step that may fail without writing; Abort always fails.
  datatype Op =
    | Put(style: Style, key: Key, body: Body)
    | Drop(key: Key)
    | Sweep(key: Key)
    | Gate
    | Abort

  predicate Removes(op: Op) { op.Drop? || op.Sweep? }

  predicate Replaces(op: Op) { op.Put? && (op.style.Verified? || op.style.Plain?) }

  predicate Merges(op: Op) { op.Put? && (op.style.DaemonApply? || op.style.DeployApply? || op.style.Lenient?) }

  predicate On(op: Op, k: Key) { (op.Put? || Removes(op)) && op.key == k }

  // What the operation does when no call fails.
  function Effect(op: Op, m: Objects): Objects {
    match op
    case Put(style, k, b) =>
      if k !in m then m[k := b]
      else if style.CreateOnly? then m
      else if Replaces(op) then m[k := b]
      else m[k := m[k] + b]
    case Drop(k) => m - {k}
    case Sweep(k) => m - {k}
    case Gate => m
    case Abort => m
  }

  function EffectAll(ops: seq<Op>, m: Objects): Objects {
    if ops == [] then m else EffectAll(ops[1..], Effect(ops[0], m))
  }

  predicate Skippable(op: Op, m: Objects) { op.Put? || Removes(op) ==> op.key in m }

  // m' is where a run of ops from m can stop: after any number of operations, where an
  // operation on an object that exists may have been passed over (a refused update that is
  // only logged, a workload that could not be read).
  ghost predicate Partial(ops: seq<Op>, m: Objects, m': Objects)
    decreases |ops|
  {
    || m' == m
    || (ops != [] && Partial(ops[1..], Effect(ops[0], m), m'))
    || (ops != [] && Skippable(ops[0], m) && Partial(ops[1..], m, m'))
  }

  // Two cluster maps hold the same thing at k.
  ghost predicate Same(m: Objects, n: Objects, k: Key) {
    (k in m <==> k in n) && (k in m ==> m[k] == n[k])
  }

  lemma {:induction false} Locality(ops: seq<Op>, m: Objects, n: Objects, k: Key)
    requires Same(m, n, k)
    ensures Same(EffectAll(ops, m), EffectAll(ops, n), k)
    decreases |ops|
  {
    if ops != [] {
      Locality(ops[1..], Effect(ops[0], m), Effect(ops[0], n), k);
    }
  }

  // Some later operation decides all of k, whatever it holds now.
  predicate Resets(ops: seq<Op>, k: Key) {
    exists i :: 0 <= i < |ops| && On(ops[i], k) && (Removes(ops[i]) || Replaces(ops[i]))
  }

  // Some later operation writes field f of k.
  predicate Touches(ops: seq<Op>, k: Key, f: string) {
    exists i :: 0 <= i < |ops| && On(ops[i], k) && Merges(ops[i]) && f in ops[i].body
  }

  ghost predicate Differ(b: Body, c: Body, f: string) {
    (f in b) != (f in c) || (f in b && b[f] != c[f])
  }

  // The remaining operations will hide every difference between m and n at k.
  ghost predicate Covered(ops: seq<Op>, m: Objects, n: Objects, k: Key) {
    || Resets(ops, k)
    || Same(m, n, k)
    || (k in m && k in n && forall f :: Differ(m[k], n[k], f) ==> Touches(ops, k, f))
  }

  lemma {:induction false} CoveredConverges(ops: seq<Op>, m: Objects, n: Objects, k: Key)
    requires Covered(ops, m, n, k)
    ensures Same(EffectAll(ops, m), EffectAll(ops, n), k)
    decreases |ops|
  {
    if ops == [] {
      if k in m && k in n && (forall f :: !Differ(m[k], n[k], f)) {
        SameFields(m[k], n[k]);
      }
    } else {
      var op, rest := ops[0], ops[1..];
      var m1, n1 := Effect(op, m), Effect(op, n);
      CoveredStep(ops, m, n, k);
      CoveredConverges(rest, m1, n1, k);
    }
  }

  lemma SameFields(b: Body, c: Body)
    requires forall f :: !Differ(b, c, f)
    ensures b == c
  {
    assert b.Keys == c.Keys by {
      forall f ensures f in b.Keys <==> f in c.Keys { assert !Differ(b, c, f); }
    }
    forall f | f in b ensures b[f] == c[f] { assert !Differ(b, c, f); }
  }

  lemma CoveredStep(ops: seq<Op>, m: Objects, n: Objects, k: Key)
    requires ops != [] && Covered(ops, m, n, k)
    ensures Covered(ops[1..], Effect(ops[0], m), Effect(ops[0], n), k)
  {
    var op, rest := ops[0], ops[1..];
    var m1, n1 := Effect(op, m), Effect(op, n);
    if Resets(ops, k) {
      var i :| 0 <= i < |ops| && On(ops[i], k) && (Removes(ops[i]) || Replaces(ops[i]));
      if i > 0 {
        assert ops[i] == rest[i - 1];
      }
    } else if !Same(m, n, k) {
      forall f | Differ(m1[k], n1[k], f) ensures Touches(rest, k, f) {
        assert Differ(m[k], n[k], f);
        var i :| 0 <= i < |ops| && On(ops[i], k) && Merges(ops[i]) && f in ops[i].body;
        if i > 0 {
          assert ops[i] == rest[i - 1];
        }
      }
    }
  }

  // Where a stopped run can leave k: unless some operation resets it, it keeps existing and
  // differs from the start only in fields the operations write.
  lemma {:induction false} PartialCovered(ops: seq<Op>, m: Objects, m': Objects, k: Key)
    requires Partial(ops, m, m') && k in m
    ensures Covered(ops, m, m', k)
    decreases |ops|
  {
    if m' != m {
      var op, rest := ops[0], ops[1..];
      assert Resets(rest, k) ==> Resets(ops, k) by { if Resets(rest, k) { Later(ops, k); } }
      forall f | Touches(rest, k, f) ensures Touches(ops, k, f) { LaterField(ops, k, f); }
      if !Resets(ops, k) {
        var m1 := Effect(op, m);
        assert !(On(op, k) && (Removes(op) || Replaces(op))) by { assert op == ops[0]; }
        if Partial(rest, m1, m') {
          PartialCovered(rest, m1, m', k);
          forall f | Differ(m[k], m'[k], f) ensures Touches(ops, k, f) {
            if Differ(m[k], m1[k], f) {
              assert On(ops[0], k) && Merges(ops[0]) && f in ops[0].body;
            }
          }
        } else {
          PartialCovered(rest, m, m', k);
        }
      }
    }
  }

  lemma Later(ops: seq<Op>, k: Key)
    requires ops != [] && Resets(ops[1..], k)
    ensures Resets(ops, k)
  {
    var i :| 0 <= i < |ops[1..]| && On(ops[1..][i], k) && (Removes(ops[1..][i]) || Replaces(ops[1..][i]));
    assert ops[i + 1] == ops[1..][i];
  }

  lemma LaterField(ops: seq<Op>, k: Key, f: string)
    requires ops != [] && Touches(ops[1..], k, f)
    ensures Touches(ops, k, f)
  {
    var i :| 0 <= i < |ops[1..]| && On(ops[1..][i], k) && Merges(ops[1..][i]) && f in ops[1..][i].body;
    assert ops[i + 1] == ops[1..][i];
  }

  // A run that stopped anywhere, run again without a failure, ends where one clean run ends.
  lemma {:induction false} Restartable(ops: seq<Op>, m: Objects, m': Objects)
    requires Partial(ops, m, m')
    ensures EffectAll(ops, m') == EffectAll(ops, m)
    decreases |ops|
  {
    if m' != m {
      forall k ensures Same(EffectAll(ops, m'), EffectAll(ops, m), k) {
        RestartableAt(ops, m, m', k);
      }
      Extensional(EffectAll(ops, m'), EffectAll(ops, m));
    }
  }

  lemma Extensional(m: Objects, n: Objects)
    requires forall k :: Same(m, n, k)
    ensures m == n
  {
    forall k ensures k in m.Keys <==> k in n.Keys { assert Same(m, n, k); }
    assert m.Keys == n.Keys;
    forall k | k in m ensures m[k] == n[k] { assert Same(m, n, k); }
  }

  lemma {:induction false} RestartableAt(ops: seq<Op>, m: Objects, m': Objects, k: Key)
    requires ops != [] && m' != m && Partial(ops, m, m')
    ensures Same(EffectAll(ops, m'), EffectAll(ops, m), k)
    decreases |ops|, 0
  {
    var op, rest := ops[0], ops[1..];
    if Partial(rest, Effect(op, m), m') {
      Restartable(rest, Effect(op, m), m');
      TookEffect(op, rest, m, m', k);
    } else {
      Restartable(rest, m, m');
      PassedOver(op, rest, m, m', k);
    }
  }

  // op took effect before the stop: doing it again is hidden by what follows.
  lemma TookEffect(op: Op, rest: seq<Op>, m: Objects, m': Objects, k: Key)
    requires Partial(rest, Effect(op, m), m') && EffectAll(rest, m') == EffectAll(rest, Effect(op, m))
    ensures Same(EffectAll(rest, Effect(op, m')), EffectAll(rest, Effect(op, m)), k)
  {
    var m1, n1 := Effect(op, m), Effect(op, m');
    if Same(n1, m', k) {
      Locality(rest, n1, m', k);
    } else if Same(n1, m1, k) {
      Locality(rest, n1, m1, k);
    } else {
      PartialCovered(rest, m1, m', k);
      CoveredConverges(rest, n1, m', k);
    }
  }

  // op was passed over on an object that exists.
  lemma PassedOver(op: Op, rest: seq<Op>, m: Objects, m': Objects, k: Key)
    requires Skippable(op, m) && Partial(rest, m, m') && EffectAll(rest, m') == EffectAll(rest, m)
    ensures Same(EffectAll(rest, Effect(op, m')), EffectAll(rest, Effect(op, m)), k)
  {
    var m1, n1 := Effect(op, m), Effect(op, m');
    if !On(op, k) {
      Locality(rest, n1, m', k);
      Locality(rest, m1, m, k);
    } else if Same(n1, m1, k) {
      Locality(rest, n1, m1, k);
    } else {
      PartialCovered(rest, m, m', k);
      CoveredConverges(rest, n1, m1, k);
    }
  }
}
