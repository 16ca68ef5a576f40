// What holds in every interleaving of workers, informer handlers and user edits.
module Interleavings {
  import opened Resource
  import opened Concurrency
  import S = Status

  ghost predicate Start(s: State) {
    && s.held == map[] && s.channels == map[] && s.issued == 0 && s.closed == []
    && forall i :: 0 <= i < |s.threads| ==> s.threads[i].pc.Idle? && s.threads[i].hand.None? && !s.threads[i].stale
  }

  // ---------- locks ----------

  // A mutex is held by exactly the thread that is where the mutex is held, and every thread
  // is where its kind can be.
  ghost predicate Locked(s: State) {
    && (forall m :: m in s.held ==> s.held[m] < |s.threads|)
    && (forall i, m {:trigger Holds(s.threads[i], m)} :: 0 <= i < |s.threads| ==> (Holds(s.threads[i], m) <==> m in s.held && s.held[m] == i))
    && (forall i :: 0 <= i < |s.threads| ==> Fits(s.threads[i]))
  }

  lemma OthersKept(s: State, i: nat, c: Choice, j: nat)
    requires i < |s.threads| && j < |s.threads| && j != i
    ensures |Apply(s, i, c).threads| == |s.threads|
    ensures Apply(s, i, c).threads[j] ==
            s.threads[j].(stale := s.threads[j].stale || (ChangesLast(s, c) && s.threads[j].name == c.thread.name))
  {
  }

  lemma OwnAfter(s: State, i: nat, c: Choice)
    requires i < |s.threads|
    ensures |Apply(s, i, c).threads| == |s.threads|
    ensures Apply(s, i, c).threads[i] == c.thread.(hand := HandAfter(s, c))
    ensures Apply(s, i, c).held == HeldAfter(s, i, c) && Apply(s, i, c).store == StoreAfter(s, c)
  {
  }

  lemma OwnLock(s: State, i: nat, c: Choice, m: Mutex)
    requires Locked(s) && i < |s.threads| && Shaped(s.threads[i], c) && Allowed(s, i, c)
    ensures var s' := Apply(s, i, c);
            |s'.threads| == |s.threads| && Fits(s'.threads[i]) && (Holds(s'.threads[i], m) <==> m in s'.held && s'.held[m] == i)
  {
    OwnAfter(s, i, c);
    assert Holds(s.threads[i], m) <==> m in s.held && s.held[m] == i;
    assert Hands(s.threads[i], c, m) by { assert m.Handlers? || m.Statuses? || m.Registry?; }
  }

  lemma OtherLock(s: State, i: nat, c: Choice, j: nat, m: Mutex)
    requires Locked(s) && i < |s.threads| && j < |s.threads| && j != i && Shaped(s.threads[i], c) && Allowed(s, i, c)
    ensures var s' := Apply(s, i, c);
            |s'.threads| == |s.threads| && Fits(s'.threads[j]) && (Holds(s'.threads[j], m) <==> m in s'.held && s'.held[m] == j)
  {
    OwnAfter(s, i, c);
    OthersKept(s, i, c, j);
    assert Holds(s.threads[i], m) <==> m in s.held && s.held[m] == i;
    assert Holds(s.threads[j], m) <==> m in s.held && s.held[m] == j;
    assert Hands(s.threads[i], c, m) by { assert m.Handlers? || m.Statuses? || m.Registry?; }
  }

  lemma LockApply(s: State, i: nat, c: Choice)
    requires Locked(s) && i < |s.threads| && Shaped(s.threads[i], c) && Allowed(s, i, c)
    ensures Locked(Apply(s, i, c))
  {
    HeldInRange(s, i, c);
    AllLocks(s, i, c, Apply(s, i, c));
  }

  lemma HeldInRange(s: State, i: nat, c: Choice)
    requires i < |s.threads| && forall m :: m in s.held ==> s.held[m] < |s.threads|
    ensures |Apply(s, i, c).threads| == |s.threads|
    ensures forall m :: m in Apply(s, i, c).held ==> Apply(s, i, c).held[m] < |s.threads|
  {
  }

  lemma AllLocks(s: State, i: nat, c: Choice, s': State)
    requires Locked(s) && i < |s.threads| && Shaped(s.threads[i], c) && Allowed(s, i, c) && s' == Apply(s, i, c)
    ensures |s'.threads| == |s.threads| && forall j :: 0 <= j < |s.threads| ==> Fits(s'.threads[j])
    ensures forall j, m {:trigger Holds(s'.threads[j], m)} :: 0 <= j < |s.threads| ==> (Holds(s'.threads[j], m) <==> m in s'.held && s'.held[m] == j)
  {
    OwnAfter(s, i, c);
    forall j | 0 <= j < |s.threads| ensures Fits(s'.threads[j]) { OneLock(s, i, c, j, Handlers); }
    forall j, m | 0 <= j < |s.threads| ensures Holds(s'.threads[j], m) <==> m in s'.held && s'.held[m] == j { OneLock(s, i, c, j, m); }
  }

  lemma OneLock(s: State, i: nat, c: Choice, j: nat, m: Mutex)
    requires Locked(s) && i < |s.threads| && j < |s.threads| && Shaped(s.threads[i], c) && Allowed(s, i, c)
    ensures var s' := Apply(s, i, c);
            |s'.threads| == |s.threads| && Fits(s'.threads[j]) && (Holds(s'.threads[j], m) <==> m in s'.held && s'.held[m] == j)
  {
    if j == i { OwnLock(s, i, c, m); } else { OtherLock(s, i, c, j, m); }
  }

  lemma LockStep(s: State, step: Step)
    requires Locked(s) && Next(s, step).Some?
    ensures Locked(Next(s, step).value)
  {
    if step.By? {
      var i := step.thread;
      LocalShape(s.threads[i], Named(s, s.threads[i], step.act), step.act);
      LockApply(s, i, Chosen(s, i, step.act).value);
    }
  }

  lemma {:induction false} LocksInAnyRun(s: State, steps: seq<Step>)
    requires Locked(s)
    ensures Locked(Run(s, steps))
    decreases |steps|
  {
    if steps != [] {
      var n := Next(s, steps[0]);
      if n.Some? { LockStep(s, steps[0]); }
      LocksInAnyRun(if n.Some? then n.value else s, steps[1..]);
    }
  }

  // In every reachable state at most one thread is inside the status engine, at most one
  // inside an informer handler and at most one at the watch registry.
  lemma MutualExclusionInAnyRun(s: State, steps: seq<Step>, i: nat, j: nat, m: Mutex)
    requires Start(s)
    ensures var v := Run(s, steps);
            i < |v.threads| && j < |v.threads| && Holds(v.threads[i], m) && Holds(v.threads[j], m) ==> i == j
  {
    LocksInAnyRun(s, steps);
    var v := Run(s, steps);
    assert i < |v.threads| && Holds(v.threads[i], m) ==> m in v.held && v.held[m] == i;
  }

  // A thread writes its status in one of five attempts, what a failed validation writes has the
  // state Failed, and a worker carries its own judgement of the state along.
  ghost predicate Engaged(t: Thread) {
    match t.pc
    case Storing(why, tries) => tries < 5 && why != Judge
    case Fetched(why, tries, _) => tries < 5 && why != Judge
    case Rejecting => t.copy.status.state == "Failed"
    case Leaving(Judge, ok) => ok <==> t.copy.status.state == "Succeeded"
    case Judged(ok) => ok <==> t.copy.status.state == "Succeeded"
    case Recorded(ok) => ok <==> t.copy.status.state == "Succeeded"
    case _ => true
  }

  ghost predicate AllEngaged(s: State) { forall i :: 0 <= i < |s.threads| ==> Engaged(s.threads[i]) }

  lemma EngineEngaged(t: Thread, r: Option<Instance>, act: Act)
    requires Engaged(t) && EngineMove(t, r, act).Some?
    ensures Engaged(EngineMove(t, r, act).value.thread)
  {
  }

  lemma OtherEngaged(t: Thread, r: Option<Instance>, act: Act)
    ensures HandlerMove(t, r, act).Some? ==> Engaged(HandlerMove(t, r, act).value.thread)
    ensures WatchMove(t, act).Some? ==> Engaged(WatchMove(t, act).value.thread)
    ensures Wake(t, r, act).Some? ==> Engaged(Wake(t, r, act).value.thread)
  {
  }

  lemma WorkerEngaged(t: Thread, r: Option<Instance>, act: Act)
    requires Engaged(t)
    ensures WorkerMove(t, r, act).Some? ==> Engaged(WorkerMove(t, r, act).value.thread)
  {
  }

  lemma LocalEngaged(t: Thread, r: Option<Instance>, act: Act)
    requires Engaged(t) && Local(t, r, act).Some?
    ensures Engaged(Local(t, r, act).value.thread)
  {
    if t.pc.WantInner? || InEngine(t.pc) { EngineEngaged(t, r, act); }
    OtherEngaged(t, r, act);
    WorkerEngaged(t, r, act);
  }

  // A conflict before the fifth attempt starts the next one.
  lemma ConflictRetries(t: Thread, r: Instance)
    requires t.pc.Fetched? && r.revision != t.pc.revision && t.pc.tries < 4
    ensures Local(t, Some(r), Write(true)) == Some(Choice(t.(pc := Storing(t.pc.why, t.pc.tries + 1)), Quiet))
  {
  }

  lemma EngagedStep(s: State, step: Step)
    requires AllEngaged(s) && Next(s, step).Some?
    ensures AllEngaged(Next(s, step).value)
  {
    if step.By? {
      var i, c := step.thread, Chosen(s, step.thread, step.act).value;
      LocalEngaged(s.threads[i], Named(s, s.threads[i], step.act), step.act);
      OwnAfter(s, i, c);
      forall j | 0 <= j < |s.threads| && j != i ensures Engaged(Next(s, step).value.threads[j]) { OthersKept(s, i, c, j); }
    }
  }

  lemma {:induction false} EngagedInAnyRun(s: State, steps: seq<Step>)
    requires AllEngaged(s)
    ensures AllEngaged(Run(s, steps))
    decreases |steps|
  {
    if steps != [] {
      var n := Next(s, steps[0]);
      if n.Some? { EngagedStep(s, steps[0]); }
      EngagedInAnyRun(if n.Some? then n.value else s, steps[1..]);
    }
  }

  // No reachable state is a deadlock: whenever some thread has work, some thread with work
  // can move.
  lemma NoDeadlockInAnyRun(s: State, steps: seq<Step>, i: nat)
    requires Start(s)
    ensures var v := Run(s, steps);
            i < |v.threads| && !v.threads[i].pc.Idle? ==>
              exists j: nat, act :: j < |v.threads| && !v.threads[j].pc.Idle? && Chosen(v, j, act).Some?
  {
    LocksInAnyRun(s, steps);
    var v := Run(s, steps);
    if i < |v.threads| && !v.threads[i].pc.Idle? {
      var j := if Statuses in v.held then v.held[Statuses]
               else if Handlers in v.held then v.held[Handlers]
               else if Registry in v.held then v.held[Registry]
               else i;
      var t := v.threads[j];
      assert Statuses in v.held ==> Holds(t, Statuses);
      assert Statuses !in v.held && Handlers in v.held ==> Holds(t, Handlers) && !Holds(t, Statuses);
      assert Statuses !in v.held && Handlers !in v.held && Registry in v.held ==> Holds(t, Registry);
      LocalOnward(t, Named(v, t, Onward(t.pc)));
      assert Chosen(v, j, Onward(t.pc)).Some?;
    }
  }

  // ---------- user edits and the stored status ----------

  function LastEdit(steps: seq<Step>, name: Ref, spec: Manifest): Manifest
    decreases |steps|
  {
    if steps == [] then spec
    else LastEdit(steps[1..], name, if steps[0].Edit? && steps[0].resource == name then steps[0].spec else spec)
  }

  function Found(s: State, name: Ref): Option<Instance> { if name in s.store then Some(s.store[name]) else None }

  // The worker may still write the whole resource.
  predicate Writing(pc: Pc) {
    Updates(pc) || (pc.WantInner? && pc.why == Judge) || (pc.Inside? && pc.why == Judge) || (pc.Leaving? && pc.why == Judge)
  }

  // A worker that may write holds an older revision, or the stored spec with defaults filled in.
  ghost predicate Linked(t: Thread, r: Option<Instance>) {
    Writing(t.pc) ==>
      && r.Some? && t.copy.revision <= r.value.revision
      && (t.copy.revision == r.value.revision ==> t.copy.spec == Filled(r.value.spec) && t.copy.annotation == r.value.annotation)
  }

  ghost predicate AllLinked(s: State) { forall i :: 0 <= i < |s.threads| ==> Linked(s.threads[i], Found(s, s.threads[i].name)) }

  function After(r: Option<Instance>, e: Effect): Option<Instance> { if e.Put? then Some(e.resource) else r }

  lemma LocalLinked(t: Thread, r: Option<Instance>, act: Act)
    requires Fits(t) && Linked(t, r) && Local(t, r, act).Some?
    ensures var c := Local(t, r, act).value; Linked(c.thread, After(r, c.effect))
  {
    if t.pc.WantInner? || InEngine(t.pc) {
      EngineLinked(t, r, act);
    } else if t.pc.WantOuter? || t.pc.Outer? || t.pc.Outgoing? {
      HandlerLinked(t, r, act);
    } else if t.pc.Ready? || t.pc.Judged? || t.pc.Recorded? || t.pc.Reported? {
      WorkerLinked(t, r, act);
    }
  }

  lemma WorkerLinked(t: Thread, r: Option<Instance>, act: Act)
    requires Linked(t, r) && WorkerMove(t, r, act).Some?
    ensures var c := WorkerMove(t, r, act).value; Linked(c.thread, After(r, c.effect))
  {
  }

  lemma EngineLinked(t: Thread, r: Option<Instance>, act: Act)
    requires Fits(t) && Linked(t, r) && EngineMove(t, r, act).Some?
    ensures var c := EngineMove(t, r, act).value; Linked(c.thread, After(r, c.effect))
  {
    match t.pc
    case Inside(why) => assert why.Refresh? || why.Report? || why.Judge? || why.Refuse?;
    case Leaving(why, _) => assert why.Refresh? || why.Report? || why.Judge? || why.Refuse?;
    case _ =>
  }

  lemma HandlerLinked(t: Thread, r: Option<Instance>, act: Act)
    requires HandlerMove(t, r, act).Some?
    ensures var c := HandlerMove(t, r, act).value; Linked(c.thread, After(r, c.effect))
  {
  }

  // A store change at a name moves its revision on, so no other copy can pass for current.
  lemma LinkedElsewhere(t: Thread, r: Instance, r': Instance)
    requires Linked(t, Some(r)) && r'.revision > r.revision
    ensures Linked(t, Some(r'))
  {
  }

  lemma OwnLinked(s: State, i: nat, act: Act)
    requires i < |s.threads| && Chosen(s, i, act).Some? && Fits(s.threads[i]) && Linked(s.threads[i], Found(s, s.threads[i].name))
    ensures var s' := Apply(s, i, Chosen(s, i, act).value);
            |s'.threads| == |s.threads| && Linked(s'.threads[i], Found(s', s'.threads[i].name))
  {
    var t, c := s.threads[i], Chosen(s, i, act).value;
    OwnAfter(s, i, c);
    LocalShape(t, Named(s, t, act), act);
    LocalLinked(t, Named(s, t, act), act);
  }

  lemma OtherLinked(s: State, i: nat, act: Act, j: nat)
    requires i < |s.threads| && j < |s.threads| && j != i && Chosen(s, i, act).Some?
    requires Linked(s.threads[j], Found(s, s.threads[j].name))
    ensures var s' := Apply(s, i, Chosen(s, i, act).value);
            |s'.threads| == |s.threads| && Linked(s'.threads[j], Found(s', s'.threads[j].name))
  {
    var t, c := s.threads[i], Chosen(s, i, act).value;
    OwnAfter(s, i, c);
    OthersKept(s, i, c, j);
    if c.effect.Put? {
      LocalPut(t, Named(s, t, act), act);
      if s.threads[j].name == t.name { LinkedElsewhere(s.threads[j], s.store[t.name], c.effect.resource); }
    }
  }

  lemma LinkedStep(s: State, step: Step)
    requires Locked(s) && AllLinked(s) && Next(s, step).Some?
    ensures AllLinked(Next(s, step).value)
  {
    var s' := Next(s, step).value;
    if step.By? {
      OwnLinked(s, step.thread, step.act);
      forall j | 0 <= j < |s.threads| && j != step.thread ensures Linked(s'.threads[j], Found(s', s'.threads[j].name)) {
        OtherLinked(s, step.thread, step.act, j);
      }
    }
  }

  // What one step does to the stored spec: an edit replaces it, a thread at most fills it in.
  lemma SpecStep(s: State, step: Step, name: Ref)
    requires AllLinked(s) && Next(s, step).Some? && name in s.store
    ensures var s' := Next(s, step).value;
            && name in s'.store
            && if step.Edit? && step.resource == name then s'.store[name].spec == step.spec
               else s'.store[name].spec == s.store[name].spec || s'.store[name].spec == Filled(s.store[name].spec)
  {
    if step.By? {
      var i, act := step.thread, step.act;
      var t, c := s.threads[i], Chosen(s, i, act).value;
      OwnAfter(s, i, c);
      if c.effect.Put? {
        LocalPut(t, Named(s, t, act), act);
        assert Named(s, t, act) == Found(s, t.name);
        assert Linked(t, Found(s, t.name));
      }
    }
  }

  lemma {:induction false} SpecKept(s: State, steps: seq<Step>, name: Ref, e: Manifest)
    requires Locked(s) && AllLinked(s) && name in s.store && (s.store[name].spec == e || s.store[name].spec == Filled(e))
    ensures var v := Run(s, steps);
            && name in v.store
            && (v.store[name].spec == LastEdit(steps, name, e) || v.store[name].spec == Filled(LastEdit(steps, name, e)))
    decreases |steps|
  {
    if steps != [] {
      var n := Next(s, steps[0]);
      var e' := if steps[0].Edit? && steps[0].resource == name then steps[0].spec else e;
      if n.Some? {
        LockStep(s, steps[0]);
        LinkedStep(s, steps[0]);
        SpecStep(s, steps[0], name);
      }
      SpecKept(if n.Some? then n.value else s, steps[1..], name, e');
    }
  }

  // In every run the stored spec is the user's last edit, at most with defaults filled in: no
  // worker's copy of an older spec ever replaces a newer one.
  lemma NoEditIsLost(s: State, steps: seq<Step>, name: Ref)
    requires Start(s) && name in s.store
    ensures var v, e := Run(s, steps), LastEdit(steps, name, s.store[name].spec);
            name in v.store && (v.store[name].spec == e || v.store[name].spec == Filled(e))
  {
    SpecKept(s, steps, name, s.store[name].spec);
  }

  lemma LocalReports(t: Thread, r: Option<Instance>, act: Act)
    requires t.pc.Fetched? && Local(t, r, act).Some?
    ensures var c := Local(t, r, act).value;
            c.thread.pc.Leaving? && c.thread.pc.ok ==>
              && r.Some? && r.value.revision == t.pc.revision && t.copy.status.state == S.Succeeded && c.thread.name == t.name
              && c.effect == Put(r.value.(status := t.copy.status, revision := t.pc.revision + 1))
  {
  }

  // UpdateStatus reports success only if the status it computed is what is stored, written
  // over the revision it fetched last, with nothing else changed.
  lemma ReportedStatusIsStored(s: State, i: nat, act: Act)
    requires i < |s.threads| && s.threads[i].pc.Fetched? && Chosen(s, i, act).Some?
    ensures var t, s' := s.threads[i], Apply(s, i, Chosen(s, i, act).value);
            |s'.threads| == |s.threads| &&
            var r := s'.threads[i].pc;
            r.Leaving? && r.ok ==>
              && t.name in s.store && s.store[t.name].revision == t.pc.revision && t.copy.status.state == S.Succeeded
              && s'.store == s.store[t.name := s.store[t.name].(status := t.copy.status, revision := t.pc.revision + 1)]
  {
    OwnAfter(s, i, Chosen(s, i, act).value);
    LocalReports(s.threads[i], Named(s, s.threads[i], act), act);
  }

  // ---------- the watch registry ----------

  ghost predicate InMap(s: State, c: nat) { exists n :: n in s.channels && s.channels[n] == c }

  ghost predicate InHand(s: State, c: nat) { exists i :: 0 <= i < |s.threads| && s.threads[i].hand == Some(c) }

  predicate Carries(pc: Pc) { (pc.WantWatch? && pc.start) || (pc.Watching? && pc.start) }

  // Every channel ever made is in exactly one place: the registry, one worker's hand, or the
  // list of closed ones, and in that place once.
  ghost predicate Watches(s: State) {
    && (forall c: nat :: Placed(s, c))
    && (forall m, n :: m in s.channels && n in s.channels && s.channels[m] == s.channels[n] ==> m == n)
    && (forall i, j :: 0 <= i < |s.threads| && 0 <= j < |s.threads| && s.threads[i].hand.Some? && s.threads[i].hand == s.threads[j].hand ==> i == j)
    && (forall i, j :: 0 <= i < j < |s.closed| ==> s.closed[i] != s.closed[j])
    && (forall i :: 0 <= i < |s.threads| ==> (s.threads[i].hand.Some? <==> Carries(s.threads[i].pc)))
  }

  ghost predicate Placed(s: State, c: nat) {
    && (c < s.issued <==> InMap(s, c) || InHand(s, c) || c in s.closed)
    && !(InMap(s, c) && InHand(s, c)) && !(InMap(s, c) && c in s.closed) && !(InHand(s, c) && c in s.closed)
  }

  ghost predicate SameHands(s: State, s': State) {
    && |s'.threads| == |s.threads| && s'.channels == s.channels && s'.issued == s.issued && s'.closed == s.closed
    && forall i :: 0 <= i < |s.threads| ==> s'.threads[i].hand == s.threads[i].hand &&
                                            (Carries(s'.threads[i].pc) <==> Carries(s.threads[i].pc))
  }

  lemma SameHandsKeep(s: State, s': State)
    requires Watches(s) && SameHands(s, s')
    ensures Watches(s')
  {
    forall c: nat ensures Placed(s', c) {
      assert Placed(s, c);
      assert InMap(s', c) <==> InMap(s, c);
      if i :| 0 <= i < |s.threads| && s.threads[i].hand == Some(c) { assert s'.threads[i].hand == Some(c); }
      if i :| 0 <= i < |s'.threads| && s'.threads[i].hand == Some(c) { assert s.threads[i].hand == Some(c); }
    }
  }

  lemma LocalCarries(t: Thread, r: Option<Instance>, act: Act)
    requires Fits(t) && Local(t, r, act).Some?
    ensures var c := Local(t, r, act).value;
            match c.effect
            case Issue => Carries(c.thread.pc) && !Carries(t.pc)
            case Exchange(start) => t.pc == Watching(start) && c.thread == t.(pc := Watched)
            case _ => Carries(c.thread.pc) <==> Carries(t.pc)
  {
    if t.pc.WantInner? || InEngine(t.pc) {
      EngineCarries(t, r, act);
    } else if t.pc.WantOuter? || t.pc.Outer? || t.pc.Outgoing? {
      HandlerCarries(t, r, act);
    }
  }

  lemma HandlerCarries(t: Thread, r: Option<Instance>, act: Act)
    requires HandlerMove(t, r, act).Some?
    ensures var c := HandlerMove(t, r, act).value;
            !c.effect.Issue? && !c.effect.Exchange? && !Carries(c.thread.pc) && !Carries(t.pc)
  {
  }

  lemma EngineCarries(t: Thread, r: Option<Instance>, act: Act)
    requires EngineMove(t, r, act).Some?
    ensures var c := EngineMove(t, r, act).value;
            !c.effect.Issue? && !c.effect.Exchange? && !Carries(c.thread.pc) && !Carries(t.pc)
  {
  }

  lemma InHandAfter(s: State, s': State, i: nat, c: nat)
    requires i < |s.threads| == |s'.threads|
    requires forall j :: 0 <= j < |s.threads| && j != i ==> s'.threads[j].hand == s.threads[j].hand
    ensures InHand(s', c) <==> s'.threads[i].hand == Some(c) || exists j :: 0 <= j < |s.threads| && j != i && s.threads[j].hand == Some(c)
  {
    if InHand(s', c) {
      var j :| 0 <= j < |s'.threads| && s'.threads[j].hand == Some(c);
      assert j == i || s.threads[j].hand == Some(c);
    }
    if j :| 0 <= j < |s.threads| && j != i && s.threads[j].hand == Some(c) {
      assert s'.threads[j].hand == Some(c);
    }
  }

  lemma IssueKeeps(s: State, i: nat, t: Thread)
    requires i < |s.threads| && Watches(s) && s.threads[i].hand.None? && Carries(t.pc)
    ensures Watches(Apply(s, i, Choice(t, Issue)))
  {
    var s' := Apply(s, i, Choice(t, Issue));
    forall j | 0 <= j < |s.threads| && s.threads[j].hand.Some? ensures s.threads[j].hand.value < s.issued {
      assert InHand(s, s.threads[j].hand.value) && Placed(s, s.threads[j].hand.value);
    }
    forall c: nat ensures Placed(s', c) {
      assert Placed(s, c);
      assert InMap(s', c) <==> InMap(s, c);
      InHandAfter(s, s', i, c);
      InHandAfter(s, s, i, c);
    }
  }

  function Exchanged(s: State, i: nat): State
    requires i < |s.threads| && s.threads[i].pc.Watching?
  {
    Apply(s, i, Choice(s.threads[i].(pc := Watched), Exchange(s.threads[i].pc.start)))
  }

  // What an exchange does to the hands and to the registry.
  lemma ExchangeHand(s: State, i: nat, c: nat)
    requires i < |s.threads| && Watches(s) && s.threads[i].pc.Watching?
    ensures InHand(Exchanged(s, i), c) <==> InHand(s, c) && s.threads[i].hand != Some(c)
  {
    var s' := Exchanged(s, i);
    assert s.threads[i].hand.Some? <==> s.threads[i].pc.start;
    InHandAfter(s, s', i, c);
    InHandAfter(s, s, i, c);
  }

  lemma ExchangeMap(s: State, i: nat, c: nat)
    requires i < |s.threads| && Watches(s) && s.threads[i].pc.Watching?
    ensures var t := s.threads[i];
            InMap(Exchanged(s, i), c) <==>
              (InMap(s, c) && !(t.name.name in s.channels && s.channels[t.name.name] == c)) || t.hand == Some(c)
  {
    var t, s' := s.threads[i], Exchanged(s, i);
    var n := t.name.name;
    assert t.hand.Some? <==> t.pc.start;
    if m :| m in s'.channels && s'.channels[m] == c {
      assert m != n ==> m in s.channels && s.channels[m] == c;
    }
    if m :| m in s.channels && s.channels[m] == c && !(n in s.channels && s.channels[n] == c) {
      assert m in s'.channels && s'.channels[m] == c;
    }
    if t.hand == Some(c) { assert s'.channels[n] == c; }
  }

  lemma ExchangeDistinct(s: State, i: nat)
    requires i < |s.threads| && Watches(s) && s.threads[i].pc.Watching?
    ensures var s' := Exchanged(s, i);
            && (forall m, n :: m in s'.channels && n in s'.channels && s'.channels[m] == s'.channels[n] ==> m == n)
            && (forall j, k :: 0 <= j < k < |s'.closed| ==> s'.closed[j] != s'.closed[k])
  {
    forall m | m in s.channels ensures InMap(s, s.channels[m]) && Placed(s, s.channels[m]) { }
    if s.threads[i].hand.Some? { assert InHand(s, s.threads[i].hand.value); }
  }

  lemma ExchangeKeeps(s: State, i: nat)
    requires i < |s.threads| && Watches(s) && s.threads[i].pc.Watching?
    ensures Watches(Exchanged(s, i))
  {
    var t, s' := s.threads[i], Exchanged(s, i);
    ExchangeDistinct(s, i);
    forall c: nat ensures Placed(s', c) {
      assert Placed(s, c);
      ExchangeHand(s, i, c);
      ExchangeMap(s, i, c);
      if t.hand == Some(c) { assert InHand(s, c); }
      if t.name.name in s.channels && s.channels[t.name.name] == c { assert InMap(s, c); }
    }
  }

  lemma WatchStep(s: State, step: Step)
    requires Locked(s) && Watches(s) && Next(s, step).Some?
    ensures Watches(Next(s, step).value)
  {
    if step.Edit? {
      SameHandsKeep(s, Next(s, step).value);
    } else {
      var i, act := step.thread, step.act;
      var t, c := s.threads[i], Chosen(s, i, act).value;
      LocalShape(t, Named(s, t, act), act);
      LocalCarries(t, Named(s, t, act), act);
      if c.effect.Issue? {
        IssueKeeps(s, i, c.thread);
      } else if c.effect.Exchange? {
        ExchangeKeeps(s, i);
      } else {
        QuietKeeps(s, i, c);
      }
    }
  }

  lemma QuietKeeps(s: State, i: nat, c: Choice)
    requires i < |s.threads| && Watches(s) && !c.effect.Issue? && !c.effect.Exchange?
    requires c.thread.hand == s.threads[i].hand && (Carries(c.thread.pc) <==> Carries(s.threads[i].pc))
    ensures Watches(Apply(s, i, c))
  {
    var s' := Apply(s, i, c);
    forall j | 0 <= j < |s.threads| && j != i ensures s'.threads[j].(stale := s.threads[j].stale) == s.threads[j] {
      OthersKept(s, i, c, j);
    }
    SameHandsKeep(s, s');
  }

  lemma {:induction false} WatchesKept(s: State, steps: seq<Step>)
    requires Locked(s) && Watches(s)
    ensures Watches(Run(s, steps))
    decreases |steps|
  {
    if steps != [] {
      var n := Next(s, steps[0]);
      if n.Some? {
        LockStep(s, steps[0]);
        WatchStep(s, steps[0]);
      }
      WatchesKept(if n.Some? then n.value else s, steps[1..]);
    }
  }

  // In every run the registered channels are open and pairwise distinct, every replaced or
  // removed one was closed exactly once, and an open channel is registered or in one hand.
  lemma WatchesInAnyRun(s: State, steps: seq<Step>)
    requires Start(s)
    ensures Watches(Run(s, steps))
  {
    WatchesKept(s, steps);
  }

  // A registered channel is displaced by exactly one step: a worker's exchange for a resource
  // of that name, in whatever namespace.
  lemma DisplacedIff(s: State, step: Step, name: string)
    requires Locked(s) && Watches(s) && name in s.channels && Next(s, step).Some?
    ensures var s' := Next(s, step).value;
            (name in s'.channels && s'.channels[name] == s.channels[name]) <==>
              !(step.By? && s.threads[step.thread].pc.Watching? && s.threads[step.thread].name.name == name)
  {
    if step.By? {
      var i, act := step.thread, step.act;
      var t := s.threads[i];
      LocalShape(t, Named(s, t, act), act);
      LocalCarries(t, Named(s, t, act), act);
      assert InMap(s, s.channels[name]) && Placed(s, s.channels[name]);
      if t.hand.Some? { assert InHand(s, t.hand.value); }
    }
  }
}
