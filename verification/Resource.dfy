// The ContainerStorageModule custom resource, as far as the reconciler reads it.
module Resource {

  datatype Option<+T> = None | Some(value: T)

  const Replication := "replication"
  const Observability := "observability"
  const AuthorizationServer := "authorization-proxy-server"

  // A component may bring its own certificate and private key.
  datatype Component = Component(name: string, enabled: bool, certificate: string, privateKey: string)
  datatype Module = Module(name: string, enabled: bool, configVersion: string, components: seq<Component>)

  datatype Spec = Spec(driver: string, version: string, configVersion: string,
                       force: Option<bool>, modules: seq<Module>)

  // How the certificates of a component are issued; half of a custom pair is an error.
  datatype Mode = SelfSigned | Custom | Half

  // The last entry of the name decides.
  function ModeOf(cs: seq<Component>, name: string): Mode {
    if cs == [] then SelfSigned
    else if cs[|cs| - 1].name == name then Issued(cs[|cs| - 1])
    else ModeOf(cs[..|cs| - 1], name)
  }

  function Issued(c: Component): Mode {
    if c.certificate == "" && c.privateKey == "" then SelfSigned
    else if c.certificate != "" && c.privateKey != "" then Custom
    else Half
  }

  // The first entry of that name, as GetModule and replicaEnabled look it up.
  function FirstModule(ms: seq<Module>, name: string): (r: Option<Module>)
    ensures r.Some? <==> exists m :: m in ms && m.name == name
    ensures r.Some? ==> r.value in ms && r.value.name == name
  {
    if ms == [] then None
    else if ms[0].name == name then Some(ms[0])
    else FirstModule(ms[1..], name)
  }

  // The first enabled entry of that name, as IsModuleEnabled looks it up.
  function EnabledModule(ms: seq<Module>, name: string): (r: Option<Module>)
    ensures r.Some? <==> exists m :: m in ms && m.name == name && m.enabled
    ensures r.Some? ==> r.value in ms && r.value.name == name && r.value.enabled
  {
    if ms == [] then None
    else if ms[0].name == name && ms[0].enabled then Some(ms[0])
    else EnabledModule(ms[1..], name)
  }

  predicate HasModule(s: Spec, name: string) { FirstModule(s.modules, name).Some? }

  predicate IsModuleEnabled(s: Spec, name: string) { EnabledModule(s.modules, name).Some? }

  predicate ReplicaEnabled(s: Spec) {
    var m := FirstModule(s.modules, Replication);
    m.Some? && m.value.enabled
  }

  predicate Switched(cs: seq<Component>, name: string) {
    exists i :: 0 <= i < |cs| && cs[i].name == name && cs[i].enabled
  }

  predicate IsComponentEnabled(s: Spec, name: string, comp: string) {
    var m := EnabledModule(s.modules, name);
    m.Some? && Switched(m.value.components, comp)
  }

  // The two lookups agree on a module: its first entry is enabled as soon as any entry is.
  predicate Consistent(s: Spec, name: string) {
    EnabledModule(s.modules, name).Some? ==> FirstModule(s.modules, name) == EnabledModule(s.modules, name)
  }

  predicate UniqueNames(ms: seq<Module>) {
    forall i, j :: 0 <= i < j < |ms| ==> ms[i].name != ms[j].name
  }

  lemma {:induction false} UniqueNamesAreConsistent(s: Spec, name: string)
    requires UniqueNames(s.modules)
    ensures Consistent(s, name)
  {
    Lookups(s.modules, name);
  }

  lemma {:induction false} Lookups(ms: seq<Module>, name: string)
    requires UniqueNames(ms)
    ensures EnabledModule(ms, name).Some? ==> FirstModule(ms, name) == EnabledModule(ms, name)
  {
    if ms != [] && ms[0].name != name {
      Lookups(ms[1..], name);
    }
  }

  predicate SameShape(ms: seq<Module>, ns: seq<Module>) {
    |ms| == |ns| && forall i :: 0 <= i < |ms| ==> ms[i].name == ns[i].name && ms[i].enabled == ns[i].enabled
  }

  // Whether the lookups agree depends on names and switches only.
  lemma {:induction false} ShapeDecides(ms: seq<Module>, ns: seq<Module>, name: string)
    requires SameShape(ms, ns)
    requires EnabledModule(ms, name).Some? ==> FirstModule(ms, name) == EnabledModule(ms, name)
    ensures EnabledModule(ns, name).Some? ==> FirstModule(ns, name) == EnabledModule(ns, name)
    ensures FirstModule(ms, name).Some? <==> FirstModule(ns, name).Some?
    ensures EnabledModule(ms, name).Some? <==> EnabledModule(ns, name).Some?
  {
    if ms != [] {
      if ms[0].name == name {
        assert ns[0].name == name;
        Present(ms, name);
        Present(ns, name);
        if !ms[0].enabled {
          assert EnabledModule(ms, name).None?;
          forall i | 0 <= i < |ns| && ns[i].name == name ensures !ns[i].enabled {
            assert ms[i] in ms;
          }
        }
      } else {
        ShapeDecides(ms[1..], ns[1..], name);
      }
    }
  }

  lemma Present(ms: seq<Module>, name: string)
    requires ms != [] && ms[0].name == name
    ensures FirstModule(ms, name) == Some(ms[0])
    ensures ms[0].enabled ==> EnabledModule(ms, name) == Some(ms[0])
  {
  }
}
