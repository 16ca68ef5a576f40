// The reconcile workers and the informer handlers as threads that share the status mutex, the
// handler mutex, the watch registry and the stored resources.
module Concurrency {
  import opened Resource
  import S = Status

  // A resource is stored under its namespace and name; the watch registry knows the name only.
  datatype Ref = Ref(namespace: string, name: string)

  // What the user wrote, and whether the worker has filled in the defaults.
  datatype Manifest = Manifest(text: string, filled: bool)

  function Filled(m: Manifest): Manifest { m.(filled := true) }

  datatype Instance = Instance(spec: Manifest, annotation: string, status: S.Report, revision: nat)

  // The mutex of the informer handlers, the one of the status engine, and the watch lock.
  datatype Mutex = Handlers | Statuses | Registry

  // Why the status mutex is taken: a handler's UpdateStatus, the worker's UpdateStatus,
  // HandleSuccess or HandleValidationError.
  datatype Why = Refresh | Report | Judge | Refuse

  datatype Pc =
    | Idle
    // informer handler
    | WantOuter | Outer | Outgoing
    // status engine
    | WantInner(why: Why) | Inside(why: Why) | Storing(why: Why, tries: nat)
    | Fetched(why: Why, tries: nat, revision: nat) | Rejecting | Leaving(why: Why, ok: bool)
    // worker
    | Ready | Judged(ok: bool) | Recorded(ok: bool) | Reported(ok: bool)
    | WantWatch(start: bool) | Watching(start: bool) | Watched

  // copy is the resource as the thread holds it; promoted says its status took the annotation
  // as last successful configuration; stale is a history flag: another thread changed the
  // stored last successful configuration after this one read it; hand is a stop channel the
  // thread has made and not yet registered.
  datatype Thread = Thread(worker: bool, pc: Pc, name: Ref, copy: Instance, blank: bool,
                           promoted: bool, stale: bool, hand: Option<nat>)

  datatype State = State(store: map<Ref, Instance>, held: map<Mutex, nat>, threads: seq<Thread>,
                         channels: map<string, nat>, issued: nat, closed: seq<nat>)

  // What calculateState found: everything runs, the controller has the desired replicas, and
  // the two pod reports.
  datatype Seen = Seen(running: bool, scaled: bool, controller: S.PodStatus, node: S.PodStatus)

  datatype Act =
    | Notify(event: Ref) | Begin(resource: Ref)
    | Lock | Unlock
    | Look | Touch | Check | Reject | Stop
    | Compute(seen: Seen)
    | Fetch(ok: bool) | Write(ok: bool)
    | Record(annotation: string) | Settle(ok: bool) | Open(ok: bool) | Swap

  datatype Step = Edit(resource: Ref, spec: Manifest) | By(thread: nat, act: Act)

  // What a thread's own move does to the shared state.
  datatype Effect = Quiet | Take(mutex: Mutex) | Give(mutex: Mutex) | Put(resource: Instance) | Issue | Exchange(start: bool)

  datatype Choice = Choice(thread: Thread, effect: Effect)

  // The status the engine computes, and whether it promotes the annotation.
  function Calculated(r: Instance, seen: Seen): (p: (S.Report, bool)) {
    var promoted := seen.running && seen.scaled && r.annotation != "";
    (S.Report(if seen.running then S.Succeeded else S.Failed, seen.controller, seen.node, if promoted then r.annotation else r.status.last),
     promoted)
  }

  // What the engine sees of a driver resource in a cluster.
  ghost function SeenOf(i: S.Instance, v: S.View, event: Option<S.Counts>, node: S.PodStatus): Seen {
    var c := S.ControllerCounts(i, v, event);
    Seen(S.Healthy(i, v, event), c.desired == i.replicas, S.Printed(c), if S.HasNodes(i) then S.NodeReport(v) else node)
  }

  // The threads compute what the status engine computes.
  lemma EngineAgrees(i: S.Instance, v: S.View, event: Option<S.Counts>, node: S.PodStatus, r: Instance)
    requires !S.IsProxy(i) && i.annotation == r.annotation
    ensures Calculated(r, SeenOf(i, v, event, node)) == (S.Updated(i, v, event, r.status.last, node), S.Promotes(i, v, event))
  {
  }

  predicate Holds(t: Thread, m: Mutex) {
    match m
    case Handlers => !t.worker && (t.pc.Outer? || t.pc.Outgoing? || t.pc.WantInner? || InEngine(t.pc))
    case Statuses => InEngine(t.pc)
    case Registry => t.pc.Watching? || t.pc.Watched?
  }

  predicate InEngine(pc: Pc) { pc.Inside? || pc.Storing? || pc.Fetched? || pc.Rejecting? || pc.Leaving? }

  // The thread still uses what it read.
  predicate Live(t: Thread) {
    t.pc.WantInner? || InEngine(t.pc) || t.pc.Ready? || t.pc.Judged? || t.pc.Recorded?
  }

  // ---------- what one thread does, given the stored resource it names ----------

  // handleDeploymentUpdate, handlePodsUpdate and handleDaemonsetUpdate.
  function HandlerMove(t: Thread, r: Option<Instance>, act: Act): Option<Choice> {
    match t.pc
    case WantOuter => if act.Lock? then Some(Choice(t.(pc := Outer), Take(Handlers))) else None
    case Outer =>
      if !act.Look? then None
      else
        var u := t.(pc := WantInner(Refresh), blank := r.None?, promoted := false, stale := false);
        Some(Choice(if r.Some? then u.(copy := r.value) else u, Quiet))
    case Outgoing => if act.Unlock? then Some(Choice(t.(pc := Idle), Give(Handlers))) else None
    case _ => None
  }

  // UpdateStatus, HandleSuccess and HandleValidationError.
  function EngineMove(t: Thread, r: Option<Instance>, act: Act): Option<Choice> {
    match t.pc
    case WantInner(why) => if act.Lock? then Some(Choice(t.(pc := Inside(why)), Take(Statuses))) else None
    case Inside(why) =>
      if !act.Compute? then None
      else
        var (status, promoted) := Calculated(t.copy, act.seen);
        Some(Choice(
          match why {
            case Refuse => t.(pc := Rejecting, copy := t.copy.(status := t.copy.status.(state := S.Failed)))
            case Judge => t.(pc := Leaving(Judge, act.seen.running), copy := t.copy.(status := status.(last := t.copy.status.last)))
            case _ => t.(pc := Storing(why, 0), copy := t.copy.(status := status), promoted := promoted)
          }, Quiet))
    case Storing(why, tries) =>
      if !act.Fetch? then None
      else Some(Choice(t.(pc := if act.ok && !t.blank && r.Some? then Fetched(why, tries, r.value.revision) else Leaving(why, false)), Quiet))
    case Fetched(why, tries, revision) =>
      if !act.Write? then None
      else if !act.ok || r.None? then Some(Choice(t.(pc := Leaving(why, false)), Quiet))
      else if r.value.revision != revision then
        Some(Choice(t.(pc := if tries + 1 < S.MaxTries then Storing(why, tries + 1) else Leaving(why, false)), Quiet))
      else
        Some(Choice(t.(pc := Leaving(why, t.copy.status.state == S.Succeeded)), Put(r.value.(status := t.copy.status, revision := revision + 1))))
    case Rejecting =>
      if !act.Write? then None
      else if act.ok && r.Some? && r.value.revision == t.copy.revision then
        Some(Choice(t.(pc := Leaving(Refuse, true)), Put(r.value.(status := t.copy.status, revision := r.value.revision + 1))))
      else Some(Choice(t.(pc := Leaving(Refuse, false)), Quiet))
    case Leaving(why, ok) =>
      if !act.Unlock? then None
      else
        var next := match why case Refresh => Outgoing case Report => Reported(ok) case Judge => Judged(ok) case Refuse => Idle;
        Some(Choice(t.(pc := next), Give(Statuses)))
    case _ => None
  }

  // Reconcile outside the status engine.
  function WorkerMove(t: Thread, r: Option<Instance>, act: Act): Option<Choice> {
    match t.pc
    case Ready =>
      if act.Reject? then Some(Choice(t.(pc := WantInner(Refuse)), Quiet))
      else if act.Check? then Some(Choice(t.(pc := WantInner(Judge)), Quiet))
      else if act.Stop? then Some(Choice(t.(pc := WantWatch(false)), Quiet))
      else if act.Touch? then
        // addFinalizer or the config version annotation: the reply refreshes the copy
        if r.Some? && r.value.revision == t.copy.revision then
          var r' := r.value.(spec := t.copy.spec, annotation := t.copy.annotation, revision := r.value.revision + 1);
          Some(Choice(t.(copy := r', promoted := false, stale := false), Put(r')))
        else Some(Choice(t.(pc := Idle), Quiet))
      else None
    case Judged(ok) =>
      if !act.Record? then None
      else if r.Some? && r.value.revision == t.copy.revision then
        // SyncCSM records on its own copy: the caller's sees the annotation but not the revision
        Some(Choice(t.(pc := Recorded(ok), copy := t.copy.(annotation := act.annotation)),
                    Put(r.value.(spec := t.copy.spec, annotation := act.annotation, revision := r.value.revision + 1))))
      else Some(Choice(t.(pc := Idle), Quiet))
    case Recorded(ok) =>
      if !act.Settle? then None else Some(Choice(t.(pc := if ok && act.ok then WantInner(Report) else Idle), Quiet))
    case Reported(ok) =>
      if !act.Open? then None
      else if ok && act.ok then Some(Choice(t.(pc := WantWatch(true)), Issue))
      else Some(Choice(t.(pc := Idle), Quiet))
    case _ => None
  }

  // The watch registry.
  function WatchMove(t: Thread, act: Act): Option<Choice> {
    match t.pc
    case WantWatch(start) => if act.Lock? then Some(Choice(t.(pc := Watching(start)), Take(Registry))) else None
    case Watching(start) => if act.Swap? then Some(Choice(t.(pc := Watched), Exchange(start))) else None
    case Watched => if act.Unlock? then Some(Choice(t.(pc := Idle), Give(Registry))) else None
    case _ => None
  }

  function Wake(t: Thread, r: Option<Instance>, act: Act): Option<Choice> {
    if act.Notify? && !t.worker then Some(Choice(t.(pc := WantOuter, name := act.event), Quiet))
    else if act.Begin? && t.worker && r.Some? then
      // the worker fills the defaults in on its copy
      Some(Choice(t.(pc := Ready, name := act.resource, copy := r.value.(spec := Filled(r.value.spec)), blank := false,
                     promoted := false, stale := false), Quiet))
    else None
  }

  function Local(t: Thread, r: Option<Instance>, act: Act): Option<Choice> {
    if t.pc.Idle? then Wake(t, r, act)
    else if t.pc.WantOuter? || t.pc.Outer? || t.pc.Outgoing? then HandlerMove(t, r, act)
    else if t.pc.WantInner? || InEngine(t.pc) then EngineMove(t, r, act)
    else if t.pc.WantWatch? || t.pc.Watching? || t.pc.Watched? then WatchMove(t, act)
    else WorkerMove(t, r, act)
  }

  // ---------- and what that does to everything shared ----------

  // Other threads working on the same resource now hold an outdated last successful
  // configuration.
  function Outdate(ts: seq<Thread>, name: Ref, changed: bool): (r: seq<Thread>)
    ensures |r| == |ts|
    ensures forall j :: 0 <= j < |ts| ==> r[j] == ts[j].(stale := ts[j].stale || (changed && ts[j].name == name))
  {
    seq(|ts|, j requires 0 <= j < |ts| => ts[j].(stale := ts[j].stale || (changed && ts[j].name == name)))
  }

  function StoreAfter(s: State, c: Choice): map<Ref, Instance> {
    if c.effect.Put? then s.store[c.thread.name := c.effect.resource] else s.store
  }

  function HeldAfter(s: State, i: nat, c: Choice): map<Mutex, nat> {
    match c.effect
    case Take(m) => s.held[m := i]
    case Give(m) => s.held - {m}
    case _ => s.held
  }

  predicate ChangesLast(s: State, c: Choice) {
    c.effect.Put? && c.thread.name in s.store && s.store[c.thread.name].status.last != c.effect.resource.status.last
  }

  function HandAfter(s: State, c: Choice): Option<nat> {
    match c.effect
    case Issue => Some(s.issued)
    case Exchange(true) => None
    case _ => c.thread.hand
  }

  // A stop channel is registered under the resource's name in place of an earlier one, which
  // is closed; stopping only closes and removes.
  function ChannelsAfter(s: State, c: Choice): map<string, nat> {
    var n := c.thread.name.name;
    if !c.effect.Exchange? then s.channels
    else if c.effect.start && c.thread.hand.Some? then s.channels[n := c.thread.hand.value]
    else s.channels - {n}
  }

  function ClosedAfter(s: State, c: Choice): seq<nat> {
    if c.effect.Exchange? && c.thread.name.name in s.channels then s.closed + [s.channels[c.thread.name.name]] else s.closed
  }

  function Apply(s: State, i: nat, c: Choice): State
    requires i < |s.threads|
  {
    State(StoreAfter(s, c), HeldAfter(s, i, c),
          Outdate(s.threads, c.thread.name, ChangesLast(s, c))[i := c.thread.(hand := HandAfter(s, c))],
          ChannelsAfter(s, c), if c.effect.Issue? then s.issued + 1 else s.issued, ClosedAfter(s, c))
  }

  function Named(s: State, t: Thread, act: Act): Option<Instance> {
    var n := if t.pc.Idle? && act.Begin? then act.resource else t.name;
    if n in s.store then Some(s.store[n]) else None
  }

  // The work queue hands a resource to one worker at a time.
  predicate Queued(s: State, i: nat, name: Ref) {
    forall j :: 0 <= j < |s.threads| && j != i && s.threads[j].worker && s.threads[j].name == name ==> s.threads[j].pc.Idle?
  }

  predicate Allowed(s: State, i: nat, c: Choice)
    requires i < |s.threads|
  {
    && (c.effect.Take? ==> c.effect.mutex !in s.held)
    && (s.threads[i].pc.Idle? && s.threads[i].worker ==> Queued(s, i, c.thread.name))
  }

  // The choice thread i makes, if it can make one.
  function Chosen(s: State, i: nat, act: Act): Option<Choice>
    requires i < |s.threads|
  {
    var c := Local(s.threads[i], Named(s, s.threads[i], act), act);
    if c.Some? && Allowed(s, i, c.value) then c else None
  }

  function Next(s: State, step: Step): Option<State> {
    match step
    case Edit(n, spec) =>
      if n in s.store then
        var r := s.store[n];
        Some(s.(store := s.store[n := r.(spec := spec, revision := r.revision + 1)]))
      else None
    case By(i, act) =>
      if i < |s.threads| && Chosen(s, i, act).Some? then Some(Apply(s, i, Chosen(s, i, act).value)) else None
  }

  // A run; steps that cannot be taken are skipped.
  function Run(s: State, steps: seq<Step>): State
    decreases |steps|
  {
    if steps == [] then s
    else
      var n := Next(s, steps[0]);
      Run(if n.Some? then n.value else s, steps[1..])
  }

  // ---------- facts about one thread's move ----------

  // The pc fits the kind of thread.
  predicate Fits(t: Thread) {
    match t.pc
    case WantOuter => !t.worker
    case Outer => !t.worker
    case Outgoing => !t.worker
    case WantInner(why) => (why == Refresh) == !t.worker
    case Inside(why) => (why == Refresh) == !t.worker
    case Storing(why, _) => (why == Refresh) == !t.worker && (why == Refresh || why == Report)
    case Fetched(why, _, _) => (why == Refresh) == !t.worker && (why == Refresh || why == Report)
    case Leaving(why, _) => (why == Refresh) == !t.worker
    case Idle => true
    case _ => t.worker
  }

  // A thread takes a mutex where it does not hold it, gives one back where it does, and
  // otherwise holds what it held.
  ghost predicate Hands(t: Thread, c: Choice, m: Mutex) {
    if c.effect == Take(m) then !Holds(t, m) && Holds(c.thread, m)
    else if c.effect == Give(m) then Holds(t, m) && !Holds(c.thread, m)
    else Holds(c.thread, m) == Holds(t, m)
  }

  ghost predicate Shaped(t: Thread, c: Choice) {
    && Fits(c.thread) && c.thread.worker == t.worker && c.thread.hand == t.hand
    && (c.thread.name == t.name || t.pc.Idle?)
    && Hands(t, c, Handlers) && Hands(t, c, Statuses) && Hands(t, c, Registry)
  }

  lemma ComputeShape(t: Thread, r: Option<Instance>, act: Act)
    requires Fits(t) && t.pc.Inside? && EngineMove(t, r, act).Some?
    ensures Shaped(t, EngineMove(t, r, act).value)
  {
    assert t.pc.why.Refresh? || t.pc.why.Report? || t.pc.why.Judge? || t.pc.why.Refuse?;
  }

  lemma LeaveShape(t: Thread, r: Option<Instance>, act: Act)
    requires Fits(t) && t.pc.Leaving? && EngineMove(t, r, act).Some?
    ensures Shaped(t, EngineMove(t, r, act).value)
  {
    assert t.pc.why.Refresh? || t.pc.why.Report? || t.pc.why.Judge? || t.pc.why.Refuse?;
  }

  lemma EngineShape(t: Thread, r: Option<Instance>, act: Act)
    requires Fits(t) && EngineMove(t, r, act).Some?
    ensures Shaped(t, EngineMove(t, r, act).value)
  {
    if t.pc.Inside? {
      ComputeShape(t, r, act);
    } else if t.pc.Leaving? {
      LeaveShape(t, r, act);
    } else if t.pc.Fetched? || t.pc.Rejecting? {
      WriteShape(t, r, act);
    }
  }

  lemma WriteShape(t: Thread, r: Option<Instance>, act: Act)
    requires Fits(t) && (t.pc.Fetched? || t.pc.Rejecting?) && EngineMove(t, r, act).Some?
    ensures Shaped(t, EngineMove(t, r, act).value)
  {
  }

  lemma ReadyShape(t: Thread, r: Option<Instance>, act: Act)
    requires Fits(t) && t.pc.Ready? && WorkerMove(t, r, act).Some?
    ensures Shaped(t, WorkerMove(t, r, act).value)
  {
  }

  lemma WorkerShape(t: Thread, r: Option<Instance>, act: Act)
    requires Fits(t) && WorkerMove(t, r, act).Some?
    ensures Shaped(t, WorkerMove(t, r, act).value)
  {
    if t.pc.Ready? { ReadyShape(t, r, act); }
  }

  lemma WatchShape(t: Thread, act: Act)
    requires Fits(t) && WatchMove(t, act).Some?
    ensures Shaped(t, WatchMove(t, act).value)
  {
  }

  lemma HandlerShape(t: Thread, r: Option<Instance>, act: Act)
    requires Fits(t) && HandlerMove(t, r, act).Some?
    ensures Shaped(t, HandlerMove(t, r, act).value)
  {
  }

  lemma LocalShape(t: Thread, r: Option<Instance>, act: Act)
    requires Fits(t) && Local(t, r, act).Some?
    ensures Shaped(t, Local(t, r, act).value)
  {
    if t.pc.WantInner? || InEngine(t.pc) {
      EngineShape(t, r, act);
    } else if t.pc.WantOuter? || t.pc.Outer? || t.pc.Outgoing? {
      HandlerShape(t, r, act);
    } else if t.pc.WantWatch? || t.pc.Watching? || t.pc.Watched? {
      WatchShape(t, act);
    } else if !t.pc.Idle? {
      WorkerShape(t, r, act);
    }
  }

  // A write of a whole resource, as opposed to its status.
  predicate Updates(pc: Pc) { pc.Ready? || pc.Judged? }

  // A stored resource gets the next revision. The two status writes change its status to the
  // writer's copy and nothing else; the other writes put the writer's spec, and only over the
  // revision the writer read.
  lemma LocalPut(t: Thread, r: Option<Instance>, act: Act)
    requires Local(t, r, act).Some? && Local(t, r, act).value.effect.Put?
    ensures var r' := Local(t, r, act).value.effect.resource;
            && r.Some? && r'.revision == r.value.revision + 1
            && Local(t, r, act).value.thread.name == t.name && !t.pc.Idle?
            && (t.pc.Fetched? || t.pc.Rejecting? || Updates(t.pc))
            && (Updates(t.pc) ==>
                  r.value.revision == t.copy.revision && r'.spec == t.copy.spec && r'.status == r.value.status &&
                  r'.annotation == Local(t, r, act).value.thread.copy.annotation)
            && (!Updates(t.pc) ==> r'.spec == r.value.spec && r'.annotation == r.value.annotation && r'.status == t.copy.status)
            && (t.pc.Rejecting? ==> r.value.revision == t.copy.revision)
  {
  }

  const NoPods := S.PodStatus("0", "0", "0")
  const AllWell := Seen(true, true, NoPods, NoPods)

  // What a thread does next when no lock stops it.
  function Onward(pc: Pc): Act {
    match pc
    case Idle => Notify(Ref("", ""))
    case Outer => Look
    case Inside(_) => Compute(AllWell)
    case Storing(_, _) => Fetch(true)
    case Fetched(_, _, _) => Write(true)
    case Rejecting => Write(true)
    case Ready => Check
    case Judged(_) => Record("")
    case Recorded(_) => Settle(true)
    case Reported(_) => Open(true)
    case Watching(_) => Swap
    case Outgoing => Unlock
    case Leaving(_, _) => Unlock
    case Watched => Unlock
    case _ => Lock
  }

  function Wanted(pc: Pc): Option<Mutex> {
    match pc
    case WantOuter => Some(Handlers)
    case WantInner(_) => Some(Statuses)
    case WantWatch(_) => Some(Registry)
    case _ => None
  }

  lemma LocalOnward(t: Thread, r: Option<Instance>)
    requires !t.pc.Idle?
    ensures var c := Local(t, r, Onward(t.pc));
            c.Some? && (c.value.effect.Take? ==> Wanted(t.pc) == Some(c.value.effect.mutex))
  {
  }
}
