// The containers of a driver's controller: which ones stay, and with which image,
// environment and arguments.
module Containers {
  import opened Resource
  import opened Text
  import opened Images
  import opened Merge

  // A sidecar entry of the custom resource.
  datatype Sidecar = Sidecar(name: string, enabled: Option<bool>, image: string, envs: seq<Override>, args: seq<string>)

  // The parts of the custom resource the pipeline reads; an absent common section has no
  // image and no variables.
  datatype Request = Request(driver: string, registry: string, retain: bool, image: string,
                             commonEnvs: seq<Override>, controllerEnvs: seq<Override>, sidecars: seq<Sidecar>)

  // The entry of the images ConfigMap that the requested version matched; no version, no match.
  datatype Matched = Matched(version: string, images: map<string, string>)

  datatype Defaults = Defaults(provisioner: string, attacher: string, snapshotter: string, registrar: string, resizer: string,
                               healthMonitor: string, sdcMonitor: string, podmon: string)

  // What a container is given besides its name.
  datatype Setup = Setup(image: string, env: seq<Env>, args: seq<string>)

  // Images and arguments are updated in place, so a container is an object.
  class Container {
    const name: string
    var image: string
    var env: seq<Env>
    var args: seq<string>

    constructor (name: string, image: string, env: seq<Env>, args: seq<string>)
      ensures this.name == name && this.image == image && this.env == env && this.args == args
    {
      this.name, this.image, this.env, this.args := name, image, env, args;
    }

    function Current(): Setup
      reads this
    {
      Setup(image, env, args)
    }
  }

  predicate IsDriver(name: string) { name == "driver" || name == "objectstorage-provisioner" }

  predicate IsHealthMonitor(name: string) { name == "csi-external-health-monitor-controller" || name == "external-health-monitor" }

  function Pinned(m: Matched, name: string): string {
    if m.version != "" && name in m.images then m.images[name] else ""
  }

  // ReplaceAllContainerImageApply: the image of the Kubernetes version in use.
  function DefaultImage(d: Defaults, name: string, image: string): string {
    match name
    case "provisioner" => d.provisioner
    case "attacher" => d.attacher
    case "snapshotter" => d.snapshotter
    case "registrar" => d.registrar
    case "resizer" => d.resizer
    case "external-health-monitor" => d.healthMonitor
    case "sdc" => d.sdcMonitor
    case "sdc-monitor" => d.sdcMonitor
    case "resiliency" => d.podmon
    case _ => image
  }

  // ---------- what the pipeline is to produce ----------

  // The first sidecar entry with the name decides; a health monitor stays only if enabled.
  predicate Removed(sidecars: seq<Sidecar>, name: string) {
    if sidecars == [] then IsHealthMonitor(name)
    else if sidecars[0].name == name then
      if sidecars[0].enabled.None? then IsHealthMonitor(name) else !sidecars[0].enabled.value
    else Removed(sidecars[1..], name)
  }

  // The driver image: ConfigMap, then registry, then the resource's, then the template's. The
  // ConfigMap image goes to the first driver container only.
  function DriverImage(q: Request, m: Matched, first: bool, image: string): string {
    if first && Pinned(m, q.driver) != "" then Pinned(m, q.driver)
    else if q.registry != "" then ResolveImage(image, q.registry, q.retain)
    else if q.image != "" then q.image
    else image
  }

  // A sidecar's entries are applied one after the other.
  function EntryImage(q: Request, m: Matched, s: Sidecar, image: string): string {
    if Pinned(m, s.name) != "" then Pinned(m, s.name)
    else if q.registry != "" then ResolveImage(image, q.registry, q.retain)
    else if s.image != "" then s.image
    else image
  }

  function EntriesImage(q: Request, m: Matched, ss: seq<Sidecar>, name: string, image: string): string {
    if ss == [] then image
    else
      var init, s := ss[..|ss| - 1], ss[|ss| - 1];
      var r := EntriesImage(q, m, init, name, image);
      if s.name == name then EntryImage(q, m, s, r) else r
  }

  function EntriesEnv(ss: seq<Sidecar>, name: string, env: seq<Env>): seq<Env> {
    if ss == [] then env
    else
      var init, s := ss[..|ss| - 1], ss[|ss| - 1];
      var r := EntriesEnv(init, name, env);
      if s.name == name then MergedAll(r, [], s.envs) else r
  }

  function EntriesArgs(ss: seq<Sidecar>, name: string, args: seq<string>): seq<string> {
    if ss == [] then args
    else
      var init, s := ss[..|ss| - 1], ss[|ss| - 1];
      var r := EntriesArgs(init, name, args);
      if s.name == name then Overwritten(r, s.args) + Unmatched(r, s.args) else r
  }

  function Count(ss: seq<Sidecar>, name: string): nat {
    if ss == [] then 0 else Count(ss[..|ss| - 1], name) + (if ss[|ss| - 1].name == name then 1 else 0)
  }

  function SidecarImage(q: Request, m: Matched, name: string, image: string): string {
    if Count(q.sidecars, name) > 0 then EntriesImage(q, m, q.sidecars, name, image)
    else if Pinned(m, name) != "" then Pinned(m, name)
    else if q.registry != "" then ResolveImage(image, q.registry, q.retain)
    else image
  }

  function FinalImage(q: Request, m: Matched, d: Defaults, first: bool, name: string, image: string): string {
    if IsDriver(name) then DriverImage(q, m, first, image)
    else SidecarImage(q, m, name, DefaultImage(d, name, image))
  }

  function FinalEnv(q: Request, name: string, env: seq<Env>): seq<Env> {
    if IsDriver(name) then MergedAll(env, q.commonEnvs, q.controllerEnvs) else EntriesEnv(q.sidecars, name, env)
  }

  function FinalArgs(q: Request, name: string, args: seq<string>): seq<string> {
    if IsDriver(name) then args else EntriesArgs(q.sidecars, name, args)
  }

  function Final(q: Request, m: Matched, d: Defaults, first: bool, name: string, s: Setup): Setup {
    Setup(FinalImage(q, m, d, first, name, s.image), FinalEnv(q, name, s.env), FinalArgs(q, name, s.args))
  }

  // The first driver container, or the length.
  function FirstDriver(cs: seq<Container>): (f: nat)
    ensures f <= |cs| && (f < |cs| ==> IsDriver(cs[f].name))
    ensures forall j :: 0 <= j < f ==> !IsDriver(cs[j].name)
  {
    if cs == [] || IsDriver(cs[0].name) then 0 else 1 + FirstDriver(cs[1..])
  }

  // The ConfigMap entry after its image has been used for a container.
  function Recorded(q: Request, m: Matched, name: string): Matched {
    if Pinned(m, q.driver) == "" then m else m.(images := m.images[name := Pinned(m, q.driver)])
  }

  // The image of a driver container, by priority: the ConfigMap's, for the first one; under a
  // registry the template's own name, re-rooted, whatever the resource names; else what the
  // resource names; else the template's.
  ghost predicate DriverChain(q: Request, m: Matched, first: bool, was: string, now: string) {
    if first && m.version != "" && q.driver in m.images && m.images[q.driver] != "" then now == m.images[q.driver]
    else if TrimSpace(q.registry) != "" then
      && TrimSpace(q.registry) + "/" <= now && BaseName(now) == BaseName(TrimSpace(was))
      && (!q.retain ==> now == TrimSpace(q.registry) + "/" + BaseName(TrimSpace(was)))
    else if q.registry != "" then now == was
    else now == if q.image != "" then q.image else was
  }

  lemma DriverChainHolds(q: Request, m: Matched, d: Defaults, first: bool, name: string, image: string)
    requires IsDriver(name)
    ensures DriverChain(q, m, first, image, FinalImage(q, m, d, first, name, image))
  {
    if TrimSpace(q.registry) != "" {
      ResolveKeepsName(image, q.registry, q.retain);
      ResolvesTo(image, q.registry, q.retain, "", "");
    }
  }

  // ---------- the pipeline ----------

  method UpdateContainerApply(q: Request, m: Matched, c: Container)
    modifies c
    ensures c.image == SidecarImage(q, m, c.name, old(c.image))
    ensures c.env == EntriesEnv(q.sidecars, c.name, old(c.env))
    ensures c.args == EntriesArgs(q.sidecars, c.name, old(c.args))
  {
    var ss := q.sidecars;
    var listed := false;
    for k := 0 to |ss|
      invariant listed <==> Count(ss[..k], c.name) > 0
      invariant c.image == EntriesImage(q, m, ss[..k], c.name, old(c.image))
      invariant c.env == EntriesEnv(ss[..k], c.name, old(c.env))
      invariant c.args == EntriesArgs(ss[..k], c.name, old(c.args))
    {
      assert ss[..k + 1][..k] == ss[..k];
      if ss[k].name == c.name {
        listed := true;
        ApplyEntry(q, m, ss[k], c);
      }
    }
    assert ss[..|ss|] == ss;
    if !listed {
      NotListed(q, m, ss, c.name, old(c.image));
      if Pinned(m, c.name) != "" {
        c.image := Pinned(m, c.name);
      } else if q.registry != "" {
        c.image := ResolveImage(c.image, q.registry, q.retain);
      }
    }
  }

  method ApplyEntry(q: Request, m: Matched, s: Sidecar, c: Container)
    modifies c
    ensures c.image == EntryImage(q, m, s, old(c.image))
    ensures c.env == MergedAll(old(c.env), [], s.envs)
    ensures c.args == Overwritten(old(c.args), s.args) + Unmatched(old(c.args), s.args)
  {
    if Pinned(m, s.name) != "" {
      c.image := Pinned(m, s.name);
    } else if q.registry != "" {
      c.image := ResolveImage(c.image, q.registry, q.retain);
    } else if s.image != "" {
      c.image := s.image;
    }
    c.env := ReplaceAllApplyCustomEnvs(c.env, [], s.envs);
    var was := c.args;
    var a := new string[|was|](i requires 0 <= i < |was| => was[i]);
    assert a[..] == was;
    c.args := ReplaceAllArgs(a, s.args);
  }

  lemma {:induction false} NotListed(q: Request, m: Matched, ss: seq<Sidecar>, name: string, image: string)
    requires Count(ss, name) == 0
    ensures EntriesImage(q, m, ss, name, image) == image
  {
    if ss != [] { NotListed(q, m, ss[..|ss| - 1], name, image); }
  }

  method IsRemoved(sidecars: seq<Sidecar>, name: string) returns (remove: bool)
    ensures remove == Removed(sidecars, name)
  {
    remove := IsHealthMonitor(name);
    for k := 0 to |sidecars|
      invariant remove == IsHealthMonitor(name)
      invariant Removed(sidecars[k..], name) == Removed(sidecars, name)
    {
      if sidecars[k].name == name {
        if sidecars[k].enabled.Some? { remove := !sidecars[k].enabled.value; }
        break;
      }
    }
  }

  // The driver container's own image and environment; says whether the ConfigMap image was used.
  method UpdateDriver(q: Request, pinned: string, c: Container)
    modifies c
    ensures c.image == if pinned != "" then pinned else DriverImage(q, Matched("", map[]), false, old(c.image))
    ensures c.env == MergedAll(old(c.env), q.commonEnvs, q.controllerEnvs) && c.args == old(c.args)
  {
    if pinned != "" {
      c.image := pinned;
    } else if q.registry != "" {
      c.image := ResolveImage(c.image, q.registry, q.retain);
    } else if q.image != "" {
      c.image := q.image;
    }
    c.env := ReplaceAllApplyCustomEnvs(c.env, q.commonEnvs, q.controllerEnvs);
  }

  // One container that is not a driver container or has been through UpdateDriver.
  method Finish(q: Request, m: Matched, d: Defaults, c: Container)
    modifies c
    ensures c.image == if IsDriver(c.name) then old(c.image) else SidecarImage(q, m, c.name, DefaultImage(d, c.name, old(c.image)))
    ensures c.env == if IsDriver(c.name) then old(c.env) else EntriesEnv(q.sidecars, c.name, old(c.env))
    ensures c.args == if IsDriver(c.name) then old(c.args) else EntriesArgs(q.sidecars, c.name, old(c.args))
  {
    c.image := DefaultImage(d, c.name, c.image);
    if !IsDriver(c.name) { UpdateContainerApply(q, m, c); }
  }

  // Records made for driver containers do not show in the lookups for any other.
  ghost predicate Agree(m: Matched, m': Matched) {
    m'.version == m.version && forall n :: !IsDriver(n) ==> Pinned(m', n) == Pinned(m, n)
  }

  lemma RecordedAgrees(q: Request, m: Matched, name: string)
    requires IsDriver(name)
    ensures Agree(m, Recorded(q, m, name))
  {
  }

  lemma AgreeSidecar(q: Request, m: Matched, m': Matched, name: string, image: string)
    requires Agree(m, m') && !IsDriver(name)
    ensures SidecarImage(q, m', name, image) == SidecarImage(q, m, name, image)
  {
    AgreeEntries(q, m, m', q.sidecars, name, image);
  }

  lemma {:induction false} AgreeEntries(q: Request, m: Matched, m': Matched, ss: seq<Sidecar>, name: string, image: string)
    requires Agree(m, m') && !IsDriver(name)
    ensures EntriesImage(q, m', ss, name, image) == EntriesImage(q, m, ss, name, image)
  {
    if ss != [] { AgreeEntries(q, m, m', ss[..|ss| - 1], name, image); }
  }

  // The containers below n that stay.
  function Filtered(cs: seq<Container>, n: nat, gone: string -> bool): seq<Container>
    requires n <= |cs|
  {
    if n == 0 then [] else Filtered(cs, n - 1, gone) + (if gone(cs[n - 1].name) then [] else [cs[n - 1]])
  }

  // The order-preserving filter: r is the containers at the places at, which increase and are
  // exactly those below n that stay.
  ghost predicate Selected(cs: seq<Container>, n: nat, gone: string -> bool, r: seq<Container>, at: seq<nat>) {
    && n <= |cs| && |at| == |r|
    && (forall k :: 0 <= k < |at| ==> at[k] < n && r[k] == cs[at[k]])
    && (forall k, l :: 0 <= k < l < |at| ==> at[k] < at[l])
    && (forall i :: 0 <= i < n ==> (i in at <==> !gone(cs[i].name)))
  }

  function Places(cs: seq<Container>, n: nat, gone: string -> bool): seq<nat>
    requires n <= |cs|
  {
    if n == 0 then [] else Places(cs, n - 1, gone) + (if gone(cs[n - 1].name) then [] else [n - 1])
  }

  lemma SkipStep(cs: seq<Container>, n: nat, gone: string -> bool, r: seq<Container>, at: seq<nat>)
    requires n < |cs| && Selected(cs, n, gone, r, at) && gone(cs[n].name)
    ensures Selected(cs, n + 1, gone, r + [], at + [])
  {
    assert r + [] == r && at + [] == at;
  }

  lemma KeepStep(cs: seq<Container>, n: nat, gone: string -> bool, r: seq<Container>, at: seq<nat>)
    requires n < |cs| && Selected(cs, n, gone, r, at) && !gone(cs[n].name)
    ensures Selected(cs, n + 1, gone, r + [cs[n]], at + [n])
  {
  }

  lemma {:induction false} FilteredIsSelected(cs: seq<Container>, n: nat, gone: string -> bool)
    requires n <= |cs|
    ensures Selected(cs, n, gone, Filtered(cs, n, gone), Places(cs, n, gone))
    decreases n
  {
    if n > 0 {
      FilteredIsSelected(cs, n - 1, gone);
      if gone(cs[n - 1].name) {
        SkipStep(cs, n - 1, gone, Filtered(cs, n - 1, gone), Places(cs, n - 1, gone));
      } else {
        KeepStep(cs, n - 1, gone, Filtered(cs, n - 1, gone), Places(cs, n - 1, gone));
      }
    }
  }

  function Gone(sidecars: seq<Sidecar>): string -> bool { name => Removed(sidecars, name) }

  // final is what a container is to become, gone says that it is removed; the loop knows both
  // by name only.
  ghost predicate IsFinal(q: Request, m: Matched, d: Defaults, final: (bool, string, Setup) -> Setup, gone: string -> bool) {
    && (forall first, name, s {:trigger Final(q, m, d, first, name, s)} :: final(first, name, s) == Final(q, m, d, first, name, s))
    && (forall name {:trigger Removed(q.sidecars, name)} :: gone(name) == Removed(q.sidecars, name))
  }

  // One round of the loop; first says that no driver container came before.
  method Round(q: Request, ghost m: Matched, now: Matched, d: Defaults, ghost first: bool, pinned: string, c: Container,
               kept: seq<Container>, ghost final: (bool, string, Setup) -> Setup, ghost gone: string -> bool)
      returns (r: seq<Container>, rest: string, after: Matched)
    requires Agree(m, now) && pinned == (if first then Pinned(m, q.driver) else "") && (first ==> now == m)
    requires IsFinal(q, m, d, final, gone)
    modifies c
    ensures r == kept + (if gone(c.name) then [] else [c])
    ensures rest == if IsDriver(c.name) then "" else pinned
    ensures after == if IsDriver(c.name) && first then Recorded(q, m, c.name) else now
    ensures !gone(c.name) ==> c.Current() == final(first, c.name, old(c.Current()))
  {
    r, rest, after := kept, pinned, now;
    if IsDriver(c.name) {
      UpdateDriver(q, pinned, c);
      if pinned != "" {
        // recordMatchedContainerImage, and the image is not used for a second container
        after := now.(images := now.images[c.name := pinned]);
        rest := "";
      }
    }
    var remove := IsRemoved(q.sidecars, c.name);
    if !remove {
      if !IsDriver(c.name) { AgreeSidecar(q, m, after, c.name, DefaultImage(d, c.name, c.image)); }
      Finish(q, after, d, c);
      assert c.Current() == Final(q, m, d, first, c.name, old(c.Current()));
      r := r + [c];
    }
  }

  // GetController's loop: the survivors in template order, each with the image, environment
  // and arguments it is to have; the ConfigMap image used is recorded under the container's name.
  method GetController(cs: seq<Container>, q: Request, m: Matched, d: Defaults) returns (r: seq<Container>, images: map<string, string>)
    requires forall i, j :: 0 <= i < j < |cs| ==> cs[i] != cs[j]
    modifies cs
    ensures exists at :: Selected(cs, |cs|, Gone(q.sidecars), r, at)
    ensures forall i :: 0 <= i < |cs| && !Removed(q.sidecars, cs[i].name) ==>
              cs[i].Current() == Final(q, m, d, i == FirstDriver(cs), cs[i].name, old(cs[i].Current()))
    ensures forall i :: 0 <= i < |cs| && !Removed(q.sidecars, cs[i].name) && cs[i].name in {"driver", "objectstorage-provisioner"} ==>
              DriverChain(q, m, i == FirstDriver(cs), old(cs[i].image), cs[i].image)
    ensures var f := FirstDriver(cs); images == if f < |cs| then Recorded(q, m, cs[f].name).images else m.images
  {
    r, images := Assemble(cs, q, m, d);
    FilteredIsSelected(cs, |cs|, Gone(q.sidecars));
    forall i | 0 <= i < |cs| && !Removed(q.sidecars, cs[i].name) && cs[i].name in {"driver", "objectstorage-provisioner"}
      ensures DriverChain(q, m, i == FirstDriver(cs), old(cs[i].image), cs[i].image)
    {
      DriverChainHolds(q, m, d, i == FirstDriver(cs), cs[i].name, old(cs[i].image));
    }
  }

  method Assemble(cs: seq<Container>, q: Request, m: Matched, d: Defaults) returns (r: seq<Container>, images: map<string, string>)
    requires forall i, j :: 0 <= i < j < |cs| ==> cs[i] != cs[j]
    modifies cs
    ensures r == Filtered(cs, |cs|, Gone(q.sidecars))
    ensures forall i :: 0 <= i < |cs| && !Removed(q.sidecars, cs[i].name) ==>
              cs[i].Current() == Final(q, m, d, i == FirstDriver(cs), cs[i].name, old(cs[i].Current()))
    ensures var f := FirstDriver(cs); images == if f < |cs| then Recorded(q, m, cs[f].name).images else m.images
  {
    r, images := Loop(cs, q, m, d, FirstDriver(cs), (first, name, s) => Final(q, m, d, first, name, s), Gone(q.sidecars));
  }

  method Loop(cs: seq<Container>, q: Request, m: Matched, d: Defaults, ghost f: nat,
              ghost final: (bool, string, Setup) -> Setup, ghost gone: string -> bool)
      returns (r: seq<Container>, images: map<string, string>)
    requires forall i, j :: 0 <= i < j < |cs| ==> cs[i] != cs[j]
    requires f <= |cs| && (f < |cs| ==> IsDriver(cs[f].name)) && forall j :: 0 <= j < f ==> !IsDriver(cs[j].name)
    requires IsFinal(q, m, d, final, gone)
    modifies cs
    ensures r == Filtered(cs, |cs|, gone)
    ensures forall i :: 0 <= i < |cs| && !gone(cs[i].name) ==> cs[i].Current() == final(i == f, cs[i].name, old(cs[i].Current()))
    ensures images == if f < |cs| then Recorded(q, m, cs[f].name).images else m.images
  {
    r := [];
    var now, pinned := m, Pinned(m, q.driver);
    for k := 0 to |cs|
      invariant r == Filtered(cs, k, gone)
      invariant pinned == if f < k then "" else Pinned(m, q.driver)
      invariant now == if f < k then Recorded(q, m, cs[f].name) else m
      invariant forall i :: k <= i < |cs| ==> cs[i].Current() == old(cs[i].Current())
      invariant forall i :: 0 <= i < k && !gone(cs[i].name) ==> cs[i].Current() == final(i == f, cs[i].name, old(cs[i].Current()))
    {
      if f < k { RecordedAgrees(q, m, cs[f].name); }
      FinalFirst(q, m, d, final, gone, k <= f, k == f, cs[k].name, cs[k].Current());
      r, pinned, now := Round(q, m, now, d, k <= f, pinned, cs[k], r, final, gone);
    }
    images := now.images;
  }

  // Being first matters to a driver container only.
  lemma FinalFirst(q: Request, m: Matched, d: Defaults, final: (bool, string, Setup) -> Setup, gone: string -> bool,
                   first: bool, first': bool, name: string, s: Setup)
    requires IsFinal(q, m, d, final, gone) && (IsDriver(name) ==> first == first')
    ensures final(first, name, s) == final(first', name, s)
  {
    assert Final(q, m, d, first, name, s) == Final(q, m, d, first', name, s);
  }

  // ---------- the priority chain ----------

  // The last image the resource's entries name.
  function LastImage(ss: seq<Sidecar>, name: string, image: string): string {
    if ss == [] then image
    else if ss[|ss| - 1].name == name && ss[|ss| - 1].image != "" then ss[|ss| - 1].image
    else LastImage(ss[..|ss| - 1], name, image)
  }

  lemma {:induction false} EntriesPinned(q: Request, m: Matched, ss: seq<Sidecar>, name: string, image: string)
    requires Pinned(m, name) != "" && Count(ss, name) > 0
    ensures EntriesImage(q, m, ss, name, image) == Pinned(m, name)
  {
    if ss[|ss| - 1].name != name { EntriesPinned(q, m, ss[..|ss| - 1], name, image); }
  }

  lemma {:induction false} EntriesResolved(q: Request, m: Matched, ss: seq<Sidecar>, name: string, image: string)
    requires Pinned(m, name) == "" && q.registry != ""
    ensures EntriesImage(q, m, ss, name, image) == Resolved(image, q.registry, q.retain, Count(ss, name))
  {
    if ss != [] {
      var init := ss[..|ss| - 1];
      EntriesResolved(q, m, init, name, image);
      ResolvedNext(image, q.registry, q.retain, Count(init, name));
    }
  }

  lemma {:induction false} EntriesNamed(q: Request, m: Matched, ss: seq<Sidecar>, name: string, image: string)
    requires Pinned(m, name) == "" && q.registry == ""
    ensures EntriesImage(q, m, ss, name, image) == LastImage(ss, name, image)
  {
    if ss != [] { EntriesNamed(q, m, ss[..|ss| - 1], name, image); }
  }

  // The image of a sidecar container, however its entries repeat: the ConfigMap's, else the
  // Kubernetes or template default re-rooted once per entry, else the last the entries name.
  lemma SidecarChain(q: Request, m: Matched, name: string, image: string)
    ensures var k := Count(q.sidecars, name);
            SidecarImage(q, m, name, image) ==
              if Pinned(m, name) != "" then Pinned(m, name)
              else if q.registry != "" then Resolved(image, q.registry, q.retain, if k == 0 then 1 else k)
              else LastImage(q.sidecars, name, image)
  {
    var k := Count(q.sidecars, name);
    if Pinned(m, name) != "" {
      if k > 0 { EntriesPinned(q, m, q.sidecars, name, image); }
    } else if q.registry != "" {
      EntriesResolved(q, m, q.sidecars, name, image);
      assert Resolved(image, q.registry, q.retain, 0) == image;
    } else {
      EntriesNamed(q, m, q.sidecars, name, image);
      if k == 0 { NotNamed(q.sidecars, name, image); }
    }
  }

  lemma {:induction false} NotNamed(ss: seq<Sidecar>, name: string, image: string)
    requires Count(ss, name) == 0
    ensures LastImage(ss, name, image) == image
  {
    if ss != [] { NotNamed(ss[..|ss| - 1], name, image); }
  }

  // A sidecar image that comes from the registry is resolved as if once if and only if its
  // entries do not repeat or resolving again changes nothing.
  lemma ResolvedOnceIff(q: Request, m: Matched, name: string, image: string)
    requires Pinned(m, name) == "" && q.registry != ""
    ensures SidecarImage(q, m, name, image) == ResolveImage(image, q.registry, q.retain) <==>
              Count(q.sidecars, name) <= 1 || Stable(q.registry, q.retain)
  {
    var k := Count(q.sidecars, name);
    SidecarChain(q, m, name, image);
    assert Resolved(image, q.registry, q.retain, 0) == image;
    assert Resolved(image, q.registry, q.retain, 1) == ResolveImage(image, q.registry, q.retain);
    if k > 1 {
      if Stable(q.registry, q.retain) {
        StableIsOnce(image, q.registry, q.retain, k);
      } else {
        UnstableGrows(image, q.registry, q.retain, k);
      }
    }
  }

  // A container survives exactly if its first entry enables it, or, with no entry or an
  // undecided one, if it is not a health monitor.
  lemma {:induction false} RemovedIff(ss: seq<Sidecar>, name: string)
    ensures Removed(ss, name) <==>
              || (exists i :: 0 <= i < |ss| && ss[i].name == name && ss[i].enabled == Some(false) && forall j :: 0 <= j < i ==> ss[j].name != name)
              || (IsHealthMonitor(name) && forall i :: 0 <= i < |ss| && ss[i].enabled == Some(true) && ss[i].name == name ==>
                    exists j :: 0 <= j < i && ss[j].name == name)
  {
    if ss != [] {
      var tail := ss[1..];
      if ss[0].name != name {
        RemovedIff(tail, name);
        assert forall i :: 0 <= i < |tail| ==> tail[i] == ss[i + 1];
        assert forall i :: 1 <= i < |ss| ==> ss[i] == tail[i - 1];
      } else {
        assert 0 < |ss|;
      }
    }
  }

  // ---------- what else a container gets ----------

  // The variables of a driver container: the controller's overrides win over the common ones,
  // those over the template.
  lemma DriverEnv(q: Request, name: string, env: seq<Env>, e: nat, i: nat)
    requires IsDriver(name) && e < |env|
    ensures |FinalEnv(q, name, env)| == |env|
    ensures i < |q.controllerEnvs| && q.controllerEnvs[i].name == env[e].name &&
            (forall j :: i < j < |q.controllerEnvs| ==> q.controllerEnvs[j].name != env[e].name) ==>
              FinalEnv(q, name, env)[e] == Env(env[e].name, Some(if q.controllerEnvs[i].value == "NA" then "" else q.controllerEnvs[i].value), None)
    ensures (forall j :: 0 <= j < |q.controllerEnvs| ==> q.controllerEnvs[j].name != env[e].name) &&
            i < |q.commonEnvs| && q.commonEnvs[i].name == env[e].name &&
            (forall j :: i < j < |q.commonEnvs| ==> q.commonEnvs[j].name != env[e].name) ==>
              FinalEnv(q, name, env)[e] == Env(env[e].name, Some(if q.commonEnvs[i].value == "NA" then "" else q.commonEnvs[i].value), None)
  {
    if i < |q.controllerEnvs| && q.controllerEnvs[i].name == env[e].name && (forall j :: i < j < |q.controllerEnvs| ==> q.controllerEnvs[j].name != env[e].name) {
      SpecificWins(env[e], q.commonEnvs, q.controllerEnvs, i);
    }
    if (forall j :: 0 <= j < |q.controllerEnvs| ==> q.controllerEnvs[j].name != env[e].name) && i < |q.commonEnvs| &&
       q.commonEnvs[i].name == env[e].name && (forall j :: i < j < |q.commonEnvs| ==> q.commonEnvs[j].name != env[e].name) {
      CommonIsShown(env[e], q.commonEnvs, q.controllerEnvs, i);
    }
  }

  // A sidecar no entry names keeps its variables and arguments; one that a single entry names
  // gets that entry's overrides and arguments.
  lemma {:induction false} SidecarSetup(ss: seq<Sidecar>, name: string, env: seq<Env>, args: seq<string>)
    ensures Count(ss, name) == 0 ==> EntriesEnv(ss, name, env) == env && EntriesArgs(ss, name, args) == args
    ensures forall i :: 0 <= i < |ss| && ss[i].name == name && Count(ss, name) == 1 ==>
              && EntriesEnv(ss, name, env) == MergedAll(env, [], ss[i].envs)
              && EntriesArgs(ss, name, args) == Overwritten(args, ss[i].args) + Unmatched(args, ss[i].args)
  {
    if ss != [] {
      var init := ss[..|ss| - 1];
      SidecarSetup(init, name, env, args);
      assert forall i :: 0 <= i < |init| ==> init[i] == ss[i];
      if ss[|ss| - 1].name == name && Count(ss, name) == 1 { CountNone(init, name); }
    }
  }

  lemma {:induction false} CountNone(ss: seq<Sidecar>, name: string)
    ensures Count(ss, name) == 0 <==> forall i :: 0 <= i < |ss| ==> ss[i].name != name
  {
    if ss != [] {
      CountNone(ss[..|ss| - 1], name);
      assert forall i :: 0 <= i < |ss| - 1 ==> ss[..|ss| - 1][i] == ss[i];
    }
  }

  const ManagedSidecars := {"provisioner", "attacher", "snapshotter", "registrar", "resizer", "external-health-monitor", "sdc",
                            "sdc-monitor", "resiliency"}

  // Without ConfigMap, registry and entries a sidecar has the image of the Kubernetes version
  // in use, and any other container the template's.
  lemma KubernetesDefaults(q: Request, m: Matched, d: Defaults, first: bool, image: string)
    requires m.version == "" && q.registry == "" && q.sidecars == []
    ensures FinalImage(q, m, d, first, "provisioner", image) == d.provisioner && FinalImage(q, m, d, first, "attacher", image) == d.attacher
    ensures FinalImage(q, m, d, first, "snapshotter", image) == d.snapshotter && FinalImage(q, m, d, first, "registrar", image) == d.registrar
    ensures FinalImage(q, m, d, first, "resizer", image) == d.resizer
    ensures FinalImage(q, m, d, first, "external-health-monitor", image) == d.healthMonitor
    ensures FinalImage(q, m, d, first, "sdc", image) == FinalImage(q, m, d, first, "sdc-monitor", image) == d.sdcMonitor
    ensures FinalImage(q, m, d, first, "resiliency", image) == d.podmon
    ensures forall name :: !IsDriver(name) && name !in ManagedSidecars ==> FinalImage(q, m, d, first, name, image) == image
  {
  }
}
