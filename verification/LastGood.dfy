// When the last successful configuration of a stored resource may change.
module LastGood {
  import opened Resource
  import opened Concurrency
  import opened Interleavings
  import S = Status

  ghost predicate Reaches(s: State, v: State) { exists steps :: Run(s, steps) == v }

  // A step changes a last successful configuration only together with the state Succeeded, and
  // to the annotation that is stored.
  ghost predicate SoundAt(v: State, step: Step, n: Ref)
    requires Next(v, step).Some? && n in v.store && n in Next(v, step).value.store
  {
    var r, r' := v.store[n], Next(v, step).value.store[n];
    r'.status.last == r.status.last || (r'.status.state == S.Succeeded && r'.status.last == r'.annotation)
  }

  ghost predicate Sound(v: State, step: Step) {
    Next(v, step).Some? ==> forall n :: n in v.store && n in Next(v, step).value.store ==> SoundAt(v, step, n)
  }

  // ---------- what a thread's copy is worth ----------

  predicate Promoting(pc: Pc) {
    pc.Storing? || pc.Fetched? || (pc.Leaving? && (pc.why == Refresh || pc.why == Report))
  }

  predicate Refusing(pc: Pc) {
    pc.Ready? || (pc.WantInner? && pc.why == Refuse) || (pc.Inside? && pc.why == Refuse) || pc.Rejecting?
  }

  // r is the stored resource the thread names.
  ghost predicate Faithful(t: Thread, r: Option<Instance>) {
    Live(t) ==>
      && (t.promoted ==> Promoting(t.pc) && t.copy.status.state == S.Succeeded && t.copy.status.last == t.copy.annotation != "")
      && ((t.worker || t.pc.Fetched?) ==> !t.blank)
      && (!t.blank ==> r.Some? && (t.stale || t.promoted || t.copy.status.last == r.value.status.last))
      && (!t.blank && Refusing(t.pc) ==> t.copy.revision <= r.value.revision && (t.stale ==> t.copy.revision < r.value.revision))
  }

  ghost predicate AllFaithful(s: State) {
    forall i :: 0 <= i < |s.threads| ==> Faithful(s.threads[i], Found(s, s.threads[i].name))
  }

  lemma EngineFaithful(t: Thread, r: Option<Instance>, act: Act)
    requires Fits(t) && Faithful(t, r) && EngineMove(t, r, act).Some?
    ensures var c := EngineMove(t, r, act).value; Faithful(c.thread, After(r, c.effect))
  {
    match t.pc
    case Inside(why) => assert why.Refresh? || why.Report? || why.Judge? || why.Refuse?;
    case Leaving(why, _) => assert why.Refresh? || why.Report? || why.Judge? || why.Refuse?;
    case _ =>
  }

  lemma LocalFaithful(t: Thread, r: Option<Instance>, act: Act)
    requires Fits(t) && Faithful(t, r) && Local(t, r, act).Some?
    ensures var c := Local(t, r, act).value; Faithful(c.thread, After(r, c.effect))
  {
    if t.pc.WantInner? || InEngine(t.pc) {
      EngineFaithful(t, r, act);
    } else if t.pc.Ready? || t.pc.Judged? || t.pc.Recorded? || t.pc.Reported? {
      WorkerFaithful(t, r, act);
    } else if t.pc.WantOuter? || t.pc.Outer? || t.pc.Outgoing? {
      HandlerFaithful(t, r, act);
    }
  }

  lemma HandlerFaithful(t: Thread, r: Option<Instance>, act: Act)
    requires Fits(t) && HandlerMove(t, r, act).Some?
    ensures var c := HandlerMove(t, r, act).value; Faithful(c.thread, After(r, c.effect))
  {
  }

  lemma WorkerFaithful(t: Thread, r: Option<Instance>, act: Act)
    requires Fits(t) && Faithful(t, r) && WorkerMove(t, r, act).Some?
    ensures var c := WorkerMove(t, r, act).value; Faithful(c.thread, After(r, c.effect))
  {
  }

  // A thread goes live with a new copy, so it does not inherit a stale mark.
  lemma LocalMark(t: Thread, r: Option<Instance>, act: Act)
    requires Local(t, r, act).Some?
    ensures var c := Local(t, r, act).value; Live(c.thread) && c.thread.stale ==> Live(t) && t.stale
  {
    if t.pc.WantInner? || InEngine(t.pc) {
      EngineMark(t, r, act);
    } else if t.pc.Ready? || t.pc.Judged? || t.pc.Recorded? || t.pc.Reported? {
      WorkerMark(t, r, act);
    }
  }

  lemma WorkerMark(t: Thread, r: Option<Instance>, act: Act)
    requires WorkerMove(t, r, act).Some?
    ensures var c := WorkerMove(t, r, act).value; Live(c.thread) && c.thread.stale ==> Live(t) && t.stale
  {
  }

  lemma EngineMark(t: Thread, r: Option<Instance>, act: Act)
    requires EngineMove(t, r, act).Some?
    ensures Live(t) && EngineMove(t, r, act).value.thread.stale == t.stale
  {
  }

  // A thread that did not move stays faithful: its copy is marked stale whenever the stored
  // last moves away from it.
  lemma OtherFaithful(s: State, i: nat, act: Act, j: nat)
    requires i < |s.threads| && j < |s.threads| && j != i && Chosen(s, i, act).Some?
    requires Faithful(s.threads[j], Found(s, s.threads[j].name))
    ensures var s' := Apply(s, i, Chosen(s, i, act).value);
            |s'.threads| == |s.threads| && Faithful(s'.threads[j], Found(s', s'.threads[j].name))
  {
    var t, c := s.threads[i], Chosen(s, i, act).value;
    OthersKept(s, i, c, j);
    OwnAfter(s, i, c);
    if c.effect.Put? { LocalPut(t, Named(s, t, act), act); }
  }

  lemma OwnFaithful(s: State, i: nat, act: Act)
    requires i < |s.threads| && Chosen(s, i, act).Some? && Fits(s.threads[i])
    requires Faithful(s.threads[i], Found(s, s.threads[i].name))
    ensures var s' := Apply(s, i, Chosen(s, i, act).value);
            |s'.threads| == |s.threads| && Faithful(s'.threads[i], Found(s', s'.threads[i].name))
  {
    var t, c := s.threads[i], Chosen(s, i, act).value;
    OwnAfter(s, i, c);
    LocalShape(t, Named(s, t, act), act);
    LocalFaithful(t, Named(s, t, act), act);
  }

  lemma FaithfulStep(s: State, step: Step)
    requires Locked(s) && AllFaithful(s) && Next(s, step).Some?
    ensures AllFaithful(Next(s, step).value)
  {
    if step.By? {
      OwnFaithful(s, step.thread, step.act);
      forall j | 0 <= j < |s.threads| && j != step.thread
        ensures Faithful(Next(s, step).value.threads[j], Found(Next(s, step).value, Next(s, step).value.threads[j].name))
      {
        OtherFaithful(s, step.thread, step.act, j);
      }
    }
  }

  // Whoever changes a last successful configuration either promoted its annotation with the
  // state Succeeded or acted on a copy another thread had outdated; a refusal never does.
  ghost predicate Explained(s: State, step: Step, n: Ref)
    requires Next(s, step).Some? && n in s.store && n in Next(s, step).value.store
  {
    var r, r' := s.store[n], Next(s, step).value.store[n];
    r'.status.last != r.status.last ==>
      && step.By? && s.threads[step.thread].pc.Fetched? && s.threads[step.thread].name == n
      && var t := s.threads[step.thread];
         if t.promoted then r'.status.state == S.Succeeded && r'.status.last == t.copy.annotation else t.stale
  }

  lemma LastChangeStep(s: State, step: Step, n: Ref)
    requires Locked(s) && AllFaithful(s) && Next(s, step).Some? && n in s.store
    ensures n in Next(s, step).value.store && Explained(s, step, n)
  {
    if step.By? {
      var i, act := step.thread, step.act;
      var t, c := s.threads[i], Chosen(s, i, act).value;
      OwnAfter(s, i, c);
      if c.effect.Put? {
        LocalPut(t, Named(s, t, act), act);
        assert Named(s, t, act) == Found(s, t.name);
        assert Faithful(t, Found(s, t.name));
      }
    }
  }

  // ---------- over runs ----------

  lemma {:induction false} FaithfulInAnyRun(s: State, steps: seq<Step>)
    requires Locked(s) && AllFaithful(s)
    ensures Locked(Run(s, steps)) && AllFaithful(Run(s, steps))
    decreases |steps|
  {
    if steps != [] {
      var n := Next(s, steps[0]);
      if n.Some? {
        LockStep(s, steps[0]);
        FaithfulStep(s, steps[0]);
      }
      FaithfulInAnyRun(if n.Some? then n.value else s, steps[1..]);
    }
  }

  lemma LastChangesInAnyRun(s: State, steps: seq<Step>, step: Step, n: Ref)
    requires Start(s) && n in s.store
    ensures var v := Run(s, steps);
            n in v.store && (Next(v, step).Some? ==> n in Next(v, step).value.store && Explained(v, step, n))
  {
    FaithfulInAnyRun(s, steps);
    SpecKept(s, steps, n, s.store[n].spec);
    if Next(Run(s, steps), step).Some? { LastChangeStep(Run(s, steps), step, n); }
  }

  // ---------- one kind of thread: no copy is ever outdated ----------

  ghost predicate OneKind(s: State) {
    forall i, j :: 0 <= i < |s.threads| && 0 <= j < |s.threads| ==> s.threads[i].worker == s.threads[j].worker
  }

  predicate SameWork(t: Thread, u: Thread) { t.worker && u.worker && t.name == u.name }

  ghost predicate Apart(s: State) {
    forall i, j :: 0 <= i < |s.threads| && 0 <= j < |s.threads| && i != j && SameWork(s.threads[i], s.threads[j]) ==>
      s.threads[i].pc.Idle? || s.threads[j].pc.Idle?
  }

  ghost predicate NoneStale(s: State) {
    forall i :: 0 <= i < |s.threads| ==> Live(s.threads[i]) ==> !s.threads[i].stale
  }

  // A live copy has the stored annotation.
  ghost predicate Noted(t: Thread, r: Option<Instance>) { Live(t) && !t.blank ==> r.Some? && t.copy.annotation == r.value.annotation }

  ghost predicate AllNoted(s: State) { forall i :: 0 <= i < |s.threads| ==> Noted(s.threads[i], Found(s, s.threads[i].name)) }

  ghost predicate Calm(s: State) {
    Locked(s) && AllFaithful(s) && OneKind(s) && Apart(s) && NoneStale(s) && AllNoted(s)
  }

  lemma LocalNoted(t: Thread, r: Option<Instance>, act: Act)
    requires Fits(t) && Noted(t, r) && Local(t, r, act).Some?
    ensures var c := Local(t, r, act).value; Noted(c.thread, After(r, c.effect))
  {
    if t.pc.WantInner? || InEngine(t.pc) {
      EngineNoted(t, r, act);
    } else if t.pc.Ready? || t.pc.Judged? || t.pc.Recorded? || t.pc.Reported? {
      WorkerNoted(t, r, act);
    }
  }

  lemma EngineNoted(t: Thread, r: Option<Instance>, act: Act)
    requires Fits(t) && Noted(t, r) && EngineMove(t, r, act).Some?
    ensures var c := EngineMove(t, r, act).value; Noted(c.thread, After(r, c.effect))
  {
    match t.pc
    case Inside(why) => assert why.Refresh? || why.Report? || why.Judge? || why.Refuse?;
    case Leaving(why, _) => assert why.Refresh? || why.Report? || why.Judge? || why.Refuse?;
    case _ =>
  }

  lemma WorkerNoted(t: Thread, r: Option<Instance>, act: Act)
    requires Fits(t) && Noted(t, r) && WorkerMove(t, r, act).Some?
    ensures var c := WorkerMove(t, r, act).value; Noted(c.thread, After(r, c.effect))
  {
  }

  lemma OwnNoted(s: State, i: nat, act: Act)
    requires i < |s.threads| && Chosen(s, i, act).Some? && Fits(s.threads[i]) && Noted(s.threads[i], Found(s, s.threads[i].name))
    ensures var s' := Apply(s, i, Chosen(s, i, act).value);
            |s'.threads| == |s.threads| && Noted(s'.threads[i], Found(s', s'.threads[i].name))
  {
    var t, c := s.threads[i], Chosen(s, i, act).value;
    OwnAfter(s, i, c);
    LocalShape(t, Named(s, t, act), act);
    LocalNoted(t, Named(s, t, act), act);
  }

  // Another live thread is on another resource, so the write does not concern it.
  lemma OtherNoted(s: State, i: nat, act: Act, j: nat)
    requires Calm(s) && i < |s.threads| && j < |s.threads| && j != i && Chosen(s, i, act).Some?
    ensures var s' := Apply(s, i, Chosen(s, i, act).value);
            |s'.threads| == |s.threads| && Noted(s'.threads[j], Found(s', s'.threads[j].name))
  {
    var t, c := s.threads[i], Chosen(s, i, act).value;
    OwnAfter(s, i, c);
    OthersKept(s, i, c, j);
    if c.effect.Put? {
      LocalPut(t, Named(s, t, act), act);
      if Live(s.threads[j]) && s.threads[j].name == t.name { Alone(s, i, j); }
    }
  }

  // Among threads of one kind, the one at work on a resource is alone on it.
  lemma Alone(s: State, i: nat, j: nat)
    requires Calm(s) && i < |s.threads| && j < |s.threads| && s.threads[i].name == s.threads[j].name
    requires Live(s.threads[i]) && Live(s.threads[j])
    ensures i == j
  {
    assert Fits(s.threads[i]) && Fits(s.threads[j]);
    if !s.threads[i].worker {
      assert !s.threads[j].worker;
      assert Holds(s.threads[i], Handlers) && Holds(s.threads[j], Handlers);
    } else {
      assert SameWork(s.threads[i], s.threads[j]);
    }
  }

  lemma CalmMark(s: State, i: nat, act: Act, j: nat)
    requires Calm(s) && i < |s.threads| && j < |s.threads| && j != i && Chosen(s, i, act).Some? && Live(s.threads[j])
    ensures |Apply(s, i, Chosen(s, i, act).value).threads| == |s.threads|
    ensures !Apply(s, i, Chosen(s, i, act).value).threads[j].stale
  {
    var t, c := s.threads[i], Chosen(s, i, act).value;
    OthersKept(s, i, c, j);
    if c.effect.Put? { LocalPut(t, Named(s, t, act), act); }
    if (t.pc.Fetched? || t.pc.Rejecting?) && t.name == s.threads[j].name { Alone(s, i, j); }
  }

  lemma CalmStep(s: State, step: Step)
    requires Calm(s) && Next(s, step).Some?
    ensures Calm(Next(s, step).value)
  {
    LockStep(s, step);
    FaithfulStep(s, step);
    if step.By? {
      var i, act, s' := step.thread, step.act, Next(s, step).value;
      var t, c := s.threads[i], Chosen(s, i, act).value;
      OwnAfter(s, i, c);
      LocalShape(t, Named(s, t, act), act);
      LocalMark(t, Named(s, t, act), act);
      forall j | 0 <= j < |s.threads| && j != i
        ensures s'.threads[j].(stale := s.threads[j].stale) == s.threads[j]
        ensures Live(s.threads[j]) ==> !s'.threads[j].stale
        ensures Noted(s'.threads[j], Found(s', s'.threads[j].name))
      {
        OtherCalm(s, i, act, j);
      }
      OwnNoted(s, i, act);
      ApartStep(s, s', i);
    }
  }

  lemma OtherCalm(s: State, i: nat, act: Act, j: nat)
    requires Calm(s) && i < |s.threads| && j < |s.threads| && j != i && Chosen(s, i, act).Some?
    ensures var s' := Apply(s, i, Chosen(s, i, act).value);
            && |s'.threads| == |s.threads|
            && s'.threads[j].(stale := s.threads[j].stale) == s.threads[j]
            && (Live(s.threads[j]) ==> !s'.threads[j].stale)
            && Noted(s'.threads[j], Found(s', s'.threads[j].name))
  {
    OthersKept(s, i, Chosen(s, i, act).value, j);
    OtherNoted(s, i, act, j);
    if Live(s.threads[j]) { CalmMark(s, i, act, j); }
  }

  lemma ApartStep(s: State, s': State, i: nat)
    requires i < |s.threads| == |s'.threads| && Apart(s)
    requires forall j :: 0 <= j < |s.threads| && j != i ==> s'.threads[j].(stale := s.threads[j].stale) == s.threads[j]
    requires s'.threads[i].worker == s.threads[i].worker
    requires s'.threads[i].name == s.threads[i].name || s.threads[i].pc.Idle?
    requires s.threads[i].pc.Idle? && s.threads[i].worker ==> Queued(s, i, s'.threads[i].name)
    ensures Apart(s')
  {
    forall j, k | 0 <= j < |s.threads| && 0 <= k < |s.threads| && j != k && SameWork(s'.threads[j], s'.threads[k])
      ensures s'.threads[j].pc.Idle? || s'.threads[k].pc.Idle?
    {
      assert j != i && k != i ==> SameWork(s.threads[j], s.threads[k]);
      assert !s.threads[i].pc.Idle? ==> SameWork(s.threads[j], s.threads[k]);
    }
  }

  lemma {:induction false} CalmInAnyRun(s: State, steps: seq<Step>)
    requires Calm(s)
    ensures Calm(Run(s, steps))
    decreases |steps|
  {
    if steps != [] {
      var n := Next(s, steps[0]);
      if n.Some? { CalmStep(s, steps[0]); }
      CalmInAnyRun(if n.Some? then n.value else s, steps[1..]);
    }
  }

  lemma CalmIsSound(v: State, step: Step, n: Ref)
    requires Calm(v) && Next(v, step).Some? && n in v.store
    ensures n in Next(v, step).value.store && SoundAt(v, step, n)
  {
    LastChangeStep(v, step, n);
    if step.By? {
      var i, act := step.thread, step.act;
      var t, c := v.threads[i], Chosen(v, i, act).value;
      OwnAfter(v, i, c);
      if c.effect.Put? { LocalPut(t, Named(v, t, act), act); }
      assert Noted(t, Found(v, t.name)) && Faithful(t, Found(v, t.name));
    }
  }

  lemma OneKindIsSound(s: State, v: State, step: Step)
    requires Start(s) && OneKind(s) && Reaches(s, v)
    ensures Sound(v, step)
  {
    var steps :| Run(s, steps) == v;
    CalmInAnyRun(s, steps);
    if Next(v, step).Some? {
      forall n | n in v.store ensures n in Next(v, step).value.store && SoundAt(v, step, n) { CalmIsSound(v, step, n); }
    }
  }

  // ---------- a worker beside a handler ----------

  lemma {:induction false} RunSnoc(s: State, steps: seq<Step>, step: Step)
    requires Next(Run(s, steps), step).Some?
    ensures Run(s, steps + [step]) == Next(Run(s, steps), step).value
    decreases |steps|
  {
    if steps == [] {
      assert [step][1..] == [];
      assert steps + [step] == [step];
    } else {
      var n := Next(s, steps[0]);
      assert (steps + [step])[1..] == steps[1..] + [step];
      RunSnoc(if n.Some? then n.value else s, steps[1..], step);
    }
  }

  lemma Then(s: State, v: State, i: nat, act: Act) returns (v': State)
    requires Reaches(s, v) && i < |v.threads| && Chosen(v, i, act).Some?
    ensures Reaches(s, v') && |v'.threads| == |v.threads|
    ensures var c := Chosen(v, i, act).value;
            && v'.threads[i] == c.thread.(hand := HandAfter(v, c))
            && Beside(v, v', i) && (!c.effect.Put? ==> forall j :: 0 <= j < |v.threads| && j != i ==> v'.threads[j] == v.threads[j])
            && v'.held == HeldAfter(v, i, c) && v'.store == StoreAfter(v, c)
  {
    var steps :| Run(s, steps) == v;
    var c := Chosen(v, i, act).value;
    v' := Apply(v, i, c);
    OwnAfter(v, i, c);
    RunSnoc(s, steps, By(i, act));
    assert Next(v, By(i, act)) == Some(v');
  }

  // All threads but i are as they were, apart from stale marks.
  ghost predicate Beside(v: State, v': State, i: nat) {
    |v'.threads| == |v.threads| &&
    forall j :: 0 <= j < |v.threads| && j != i ==> v'.threads[j] == v.threads[j].(stale := v'.threads[j].stale)
  }

  // A thread that wants the status mutex takes it and computes.
  lemma Enters(s: State, u: State, i: nat, seen: Seen) returns (v: State)
    requires Reaches(s, u) && i < |u.threads| && Statuses !in u.held && u.threads[i].pc.WantInner?
    ensures Reaches(s, v) && Beside(u, v, i) && v.store == u.store && v.held == u.held[Statuses := i]
    ensures v.threads[i] == EngineMove(u.threads[i].(pc := Inside(u.threads[i].pc.why)), None, Compute(seen)).value.thread
  {
    v := Then(s, u, i, Lock);
    v := Computes(s, v, i, seen);
  }

  lemma Computes(s: State, u: State, i: nat, seen: Seen) returns (v: State)
    requires Reaches(s, u) && i < |u.threads| && u.threads[i].pc.Inside?
    ensures Reaches(s, v) && Beside(u, v, i) && v.store == u.store && v.held == u.held
    ensures v.threads[i] == EngineMove(u.threads[i], None, Compute(seen)).value.thread
  {
    v := Then(s, u, i, Compute(seen));
  }

  // ---------- what a worker does up to its record ----------

  // The worker w is free to begin: it is idle, and so is every other worker.
  ghost predicate Spare(v: State, w: nat, n: Ref) {
    && w < |v.threads| && v.threads[w].worker && v.threads[w].pc.Idle? && n in v.store && Statuses !in v.held
    && forall j :: 0 <= j < |v.threads| && v.threads[j].worker ==> v.threads[j].pc.Idle?
  }

  lemma WorkerBegins(s: State, u: State, w: nat, n: Ref) returns (v: State)
    requires Reaches(s, u) && Spare(u, w, n)
    ensures Reaches(s, v) && Beside(u, v, w) && v.store == u.store && v.held == u.held
    ensures v.threads[w].worker && v.threads[w].pc == WantInner(Judge) && v.threads[w].name == n && !v.threads[w].blank
    ensures v.threads[w].copy == u.store[n].(spec := Filled(u.store[n].spec))
  {
    v := Then(s, u, w, Begin(n));
    v := Then(s, v, w, Check);
  }

  lemma WorkerJudges(s: State, u: State, w: nat) returns (v: State)
    requires Reaches(s, u) && w < |u.threads| && u.threads[w].pc == WantInner(Judge) && Statuses !in u.held
    ensures Reaches(s, v) && Beside(u, v, w) && v.store == u.store && v.held == u.held
    ensures v.threads[w].pc == Judged(true) && v.threads[w].name == u.threads[w].name && v.threads[w].blank == u.threads[w].blank
    ensures v.threads[w].worker == u.threads[w].worker && v.threads[w].copy.revision == u.threads[w].copy.revision
    ensures v.threads[w].copy.status.last == u.threads[w].copy.status.last
  {
    v := Enters(s, u, w, AllWell);
    v := Then(s, v, w, Unlock);
    assert v.held == u.held;
  }

  // It records annotation a, and then goes on to report or gives up.
  lemma WorkerRecords(s: State, u: State, w: nat, n: Ref, a: string, report: bool) returns (v: State)
    requires Reaches(s, u) && Spare(u, w, n)
    ensures Reaches(s, v) && Beside(u, v, w) && v.held == u.held && v.threads[w].worker
    ensures v.threads[w].pc == (if report then WantInner(Report) else Idle) && v.threads[w].name == n && !v.threads[w].blank
    ensures v.threads[w].copy.status.last == u.store[n].status.last
    ensures n in v.store && v.store[n].status == u.store[n].status && v.store[n].annotation == a
  {
    v := WorkerBegins(s, u, w, n);
    v := WorkerJudges(s, v, w);
    v := WorkerSettles(s, v, w, n, a, report);
  }

  lemma WorkerSettles(s: State, u: State, w: nat, n: Ref, a: string, report: bool) returns (v: State)
    requires Reaches(s, u) && w < |u.threads| && u.threads[w].pc == Judged(true) && u.threads[w].name == n && n in u.store
    requires !u.threads[w].blank && u.threads[w].copy.revision == u.store[n].revision
    ensures Reaches(s, v) && Beside(u, v, w) && v.held == u.held && v.threads[w].worker == u.threads[w].worker
    ensures v.threads[w].pc == (if report then WantInner(Report) else Idle) && v.threads[w].name == n && !v.threads[w].blank
    ensures v.threads[w].copy.status.last == u.threads[w].copy.status.last
    ensures n in v.store && v.store[n].status == u.store[n].status && v.store[n].annotation == a
  {
    v := WorkerNotes(s, u, w, n, a);
    v := WorkerMovesOn(s, v, w, report);
  }

  lemma WorkerNotes(s: State, u: State, w: nat, n: Ref, a: string) returns (v: State)
    requires Reaches(s, u) && w < |u.threads| && u.threads[w].pc == Judged(true) && u.threads[w].name == n && n in u.store
    requires u.threads[w].copy.revision == u.store[n].revision
    ensures Reaches(s, v) && Beside(u, v, w) && v.held == u.held
    ensures v.threads[w] == u.threads[w].(pc := Recorded(true), copy := u.threads[w].copy.(annotation := a))
    ensures n in v.store && v.store[n].status == u.store[n].status && v.store[n].annotation == a
  {
    v := Then(s, u, w, Record(a));
  }

  lemma WorkerMovesOn(s: State, u: State, w: nat, report: bool) returns (v: State)
    requires Reaches(s, u) && w < |u.threads| && u.threads[w].pc == Recorded(true)
    ensures Reaches(s, v) && Beside(u, v, w) && v.held == u.held && v.store == u.store
    ensures v.threads[w] == u.threads[w].(pc := if report then WantInner(Report) else Idle)
  {
    v := Then(s, u, w, Settle(report));
  }

  // ---------- what a handler does ----------

  lemma HandlerLooks(s: State, u: State, h: nat, n: Ref) returns (v: State)
    requires Reaches(s, u) && h < |u.threads| && u.threads[h].pc.Idle? && !u.threads[h].worker && n in u.store && u.held == map[]
    ensures Reaches(s, v) && Beside(u, v, h) && v.store == u.store && v.held == map[Handlers := h]
    ensures v.threads[h].pc == WantInner(Refresh) && v.threads[h].name == n && !v.threads[h].blank && !v.threads[h].worker
    ensures v.threads[h].copy == u.store[n]
  {
    v := Then(s, u, h, Notify(n));
    v := Then(s, v, h, Lock);
    v := Then(s, v, h, Look);
  }

  // It sees everything running and is about to write what it promoted.
  lemma HandlerFetches(s: State, u: State, h: nat, n: Ref) returns (v: State)
    requires Reaches(s, u) && h < |u.threads| && u.threads[h].pc == WantInner(Refresh) && u.threads[h].name == n && !u.threads[h].blank
    requires Statuses !in u.held && n in u.store && u.threads[h].copy.annotation != ""
    ensures Reaches(s, v) && Beside(u, v, h) && v.store == u.store && v.held == u.held[Statuses := h]
    ensures v.threads[h].pc == Fetched(Refresh, 0, u.store[n].revision) && v.threads[h].name == n && !v.threads[h].worker == !u.threads[h].worker
    ensures v.threads[h].copy.status.last == u.threads[h].copy.annotation && v.threads[h].copy.status.state == S.Succeeded
  {
    v := Enters(s, u, h, AllWell);
    v := Then(s, v, h, Fetch(true));
  }

  lemma HandlerWrites(s: State, u: State, h: nat, n: Ref) returns (v: State)
    requires Reaches(s, u) && h < |u.threads| && n in u.store && u.held == map[Handlers := h, Statuses := h]
    requires u.threads[h].pc == Fetched(Refresh, 0, u.store[n].revision) && u.threads[h].name == n
    ensures Reaches(s, v) && Beside(u, v, h) && v.held == map[] && n in v.store
    ensures v.store[n].status == u.threads[h].copy.status
  {
    v := Then(s, u, h, Write(true));
    v := HandlerLeaves(s, v, h);
  }

  lemma HandlerLeaves(s: State, u: State, h: nat) returns (v: State)
    requires Reaches(s, u) && h < |u.threads| && u.held == map[Handlers := h, Statuses := h]
    requires u.threads[h].pc.Leaving? && u.threads[h].pc.why == Refresh
    ensures Reaches(s, v) && Beside(u, v, h) && v.store == u.store && v.held == map[]
  {
    v := Then(s, u, h, Unlock);
    v := Then(s, v, h, Unlock);
    assert v.held == map[];
  }

  // ---------- the two failing runs ----------

  lemma StartSpare(s: State, w: nat, n: Ref)
    requires Start(s) && w < |s.threads| && s.threads[w].worker && n in s.store
    ensures Spare(s, w, n) && Reaches(s, s)
  {
    assert Run(s, []) == s;
  }

  lemma HandlerPromotes(s: State, u: State, h: nat, n: Ref) returns (v: State)
    requires Reaches(s, u) && h < |u.threads| && u.threads[h].pc.Idle? && !u.threads[h].worker && n in u.store && u.held == map[]
    requires u.store[n].annotation != ""
    ensures Reaches(s, v) && Beside(u, v, h) && v.held == map[] && n in v.store
    ensures v.store[n].status.last == u.store[n].annotation
  {
    v := HandlerLooks(s, u, h, n);
    v := HandlerFetches(s, v, h, n);
    v := HandlerWrites(s, v, h, n);
  }

  // The worker, on its older copy, finds something not running and puts the old value back.
  lemma WorkerReverts(s: State, u: State, w: nat, n: Ref) returns (v: State)
    requires Reaches(s, u) && w < |u.threads| && n in u.store && Statuses !in u.held
    requires u.threads[w].pc == WantInner(Report) && u.threads[w].name == n && !u.threads[w].blank
    requires u.store[n].status.last != u.threads[w].copy.status.last
    ensures Reaches(s, v) && Unsound(v, w, n) && v.threads[w].copy.status.state == S.Failed
  {
    v := Enters(s, u, w, Seen(false, false, NoPods, NoPods));
    v := Then(s, v, w, Fetch(true));
  }

  // The write of thread w changes the last successful configuration of n to what its copy has.
  ghost predicate Unsound(v: State, w: nat, n: Ref) {
    && w < |v.threads| && v.threads[w].pc.Fetched? && v.threads[w].name == n && n in v.store
    && v.threads[w].pc.revision == v.store[n].revision && v.threads[w].copy.status.last != v.store[n].status.last
    && (v.threads[w].copy.status.state == S.Failed || v.threads[w].copy.status.last != v.store[n].annotation)
  }

  lemma UnsoundWrite(v: State, w: nat, n: Ref)
    requires Unsound(v, w, n)
    ensures var step := By(w, Write(true));
            && Next(v, step).Some? && n in Next(v, step).value.store && !SoundAt(v, step, n) && !Sound(v, step)
            && Next(v, step).value.store[n].status == v.threads[w].copy.status
            && Next(v, step).value.store[n].annotation == v.store[n].annotation
  {
    OwnAfter(v, w, Chosen(v, w, Write(true)).value);
  }

  // A worker that has recorded, a handler that promotes, and the worker's report: the value
  // goes back, with the state Failed.
  lemma WorkerBesideHandler(s: State, w: nat, h: nat, n: Ref) returns (v: State)
    requires Start(s) && w < |s.threads| && h < |s.threads| && s.threads[w].worker && !s.threads[h].worker && n in s.store
    ensures Reaches(s, v) && !Sound(v, By(w, Write(true)))
    ensures Next(v, By(w, Write(true))).Some? && n in Next(v, By(w, Write(true))).value.store
    ensures Next(v, By(w, Write(true))).value.store[n].status.state == S.Failed
  {
    StartSpare(s, w, n);
    v := WorkerRecords(s, s, w, n, s.store[n].status.last + "'", true);
    v := HandlerPromotes(s, v, h, n);
    v := WorkerReverts(s, v, w, n);
    UnsoundWrite(v, w, n);
  }

  // A handler that read one annotation and promotes it over the next one a worker has
  // recorded: the state is Succeeded, but the value is not the stored annotation.
  lemma HandlerBehindWorker(s: State, w: nat, h: nat, n: Ref) returns (v: State)
    requires Start(s) && w < |s.threads| && h < |s.threads| && s.threads[w].worker && !s.threads[h].worker && n in s.store
    ensures Reaches(s, v) && !Sound(v, By(h, Write(true)))
    ensures Next(v, By(h, Write(true))).Some? && n in Next(v, By(h, Write(true))).value.store
    ensures var r := Next(v, By(h, Write(true))).value.store[n];
            r.status.state == S.Succeeded && n in v.store && r.status.last != v.store[n].status.last && r.status.last != r.annotation
  {
    var last := s.store[n].status.last;
    StartSpare(s, w, n);
    v := WorkerRecords(s, s, w, n, last + "'", false);
    v := HandlerLooks(s, v, h, n);
    v := WorkerRecords(s, v, w, n, last + "''", false);
    v := HandlerFetches(s, v, h, n);
    UnsoundWrite(v, h, n);
  }

  lemma {:induction false} StaysEmpty(s: State, steps: seq<Step>)
    requires s.store == map[]
    ensures Run(s, steps).store == map[]
    decreases |steps|
  {
    if steps != [] {
      var n := Next(s, steps[0]);
      if steps[0].By? && n.Some? {
        var i, act := steps[0].thread, steps[0].act;
        OwnAfter(s, i, Chosen(s, i, act).value);
        if Chosen(s, i, act).value.effect.Put? { LocalPut(s.threads[i], Named(s, s.threads[i], act), act); }
      }
      StaysEmpty(if n.Some? then n.value else s, steps[1..]);
    }
  }

  // In every run the last successful configuration changes only with the state Succeeded and
  // to the stored annotation if and only if workers and handlers never run side by side.
  lemma LastIsSoundIff(s: State)
    requires Start(s)
    ensures (forall v, step :: Reaches(s, v) ==> Sound(v, step)) <==> OneKind(s) || s.store == map[]
  {
    if OneKind(s) {
      forall v, step | Reaches(s, v) ensures Sound(v, step) { OneKindIsSound(s, v, step); }
    } else if s.store == map[] {
      forall v, step | Reaches(s, v) ensures Sound(v, step) {
        var steps :| Run(s, steps) == v;
        StaysEmpty(s, steps);
      }
    } else {
      var i, j :| 0 <= i < |s.threads| && 0 <= j < |s.threads| && s.threads[i].worker && !s.threads[j].worker;
      var n :| n in s.store;
      var v := WorkerBesideHandler(s, i, j, n);
    }
  }
}
