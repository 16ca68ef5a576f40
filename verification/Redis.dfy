// The redis credentials of the authorization server: a validator and a separate loop over
// global variables that have to agree.
module Redis {
  import opened Resource

  datatype Conjur = Conjur(usernamePath: string, passwordPath: string)

  datatype Entry = Entry(className: string, secretName: string, usernameKey: string, passwordKey: string, conjur: Option<Conjur>)

  datatype Settings = Settings(username: string, password: string, entries: seq<Entry>)

  const DefaultSecretName := "redis-csm-secret"
  const DefaultUsernameKey := "commander_user"
  const DefaultPasswordKey := "password"

  predicate Blank(e: Entry) { e.className == "" && e.secretName == "" && e.usernameKey == "" && e.passwordKey == "" }

  predicate Complete(e: Entry) { e.className != "" && e.secretName != "" && e.usernameKey != "" && e.passwordKey != "" }

  predicate Direct(c: Settings) { c.username != "" && c.password != "" }

  // Credentials come in pairs, every entry is blank or complete, and exactly one of the two
  // ways is used.
  ghost predicate Valid(c: Settings) {
    && (c.username != "" <==> c.password != "")
    && (forall i :: 0 <= i < |c.entries| ==> Blank(c.entries[i]) || Complete(c.entries[i]))
    && (Direct(c) <==> !exists i :: 0 <= i < |c.entries| && Complete(c.entries[i]))
  }

  method ValidateRedisConfig(c: Settings) returns (direct: bool, ok: bool)
    ensures ok <==> Valid(c)
    ensures direct <==> ok && Direct(c)
  {
    if (c.username != "") != (c.password != "") { return false, false; }
    var provider := false;
    for i := 0 to |c.entries|
      invariant forall j :: 0 <= j < i ==> Blank(c.entries[j]) || Complete(c.entries[j])
      invariant provider <==> exists j :: 0 <= j < i && Complete(c.entries[j])
    {
      if Blank(c.entries[i]) { continue; }
      if !Complete(c.entries[i]) { return false, false; }
      provider := true;
    }
    if Direct(c) == provider { return false, false; }
    return Direct(c), true;
  }

  // The credentials the workloads are given: the provider class, and the secret with its keys.
  datatype Reference = Reference(className: string, secretName: string, usernameKey: string, passwordKey: string)

  const Defaults := Reference("", DefaultSecretName, DefaultUsernameKey, DefaultPasswordKey)

  function ReferenceOf(e: Entry): Reference { Reference(e.className, e.secretName, e.usernameKey, e.passwordKey) }

  // An entry with a class and a secret name replaces the reference, whatever its keys.
  function Chosen(es: seq<Entry>): Reference {
    if es == [] then Defaults
    else
      var e := es[|es| - 1];
      if e.className != "" && e.secretName != "" then ReferenceOf(e) else Chosen(es[..|es| - 1])
  }

  function Paths(es: seq<Entry>): Conjur {
    if es == [] then Conjur("", "")
    else if es[|es| - 1].conjur.Some? then es[|es| - 1].conjur.value
    else Paths(es[..|es| - 1])
  }

  // The global variables.
  class Globals {
    var className: string
    var secretName: string
    var usernameKey: string
    var passwordKey: string
    var conjur: Conjur

    constructor ()
      ensures Current() == Reference("", "", "", "") && conjur == Conjur("", "")
    {
      className, secretName, usernameKey, passwordKey, conjur := "", "", "", "", Conjur("", "");
    }

    function Current(): Reference
      reads this
    {
      Reference(className, secretName, usernameKey, passwordKey)
    }

    method UpdateRedisGlobalVars(c: Settings)
      modifies this
      ensures Current() == Chosen(c.entries) && conjur == Paths(c.entries)
    {
      className, secretName, usernameKey, passwordKey := "", DefaultSecretName, DefaultUsernameKey, DefaultPasswordKey;
      conjur := Conjur("", "");
      for i := 0 to |c.entries|
        invariant Current() == Chosen(c.entries[..i]) && conjur == Paths(c.entries[..i])
      {
        var e := c.entries[i];
        assert c.entries[..i + 1][..i] == c.entries[..i];
        if e.className != "" && e.secretName != "" {
          className, secretName, usernameKey, passwordKey := e.className, e.secretName, e.usernameKey, e.passwordKey;
        }
        if e.conjur.Some? { conjur := e.conjur.value; }
      }
      assert c.entries[..|c.entries|] == c.entries;
    }
  }

  // The secret the operator creates from direct credentials.
  function CreatedSecret(c: Settings): (string, map<string, string>) {
    (DefaultSecretName, map["password" := c.password, "commander_user" := c.username])
  }

  // The last entry with a class and a secret name.
  ghost predicate Decides(es: seq<Entry>, i: nat) {
    i < |es| && Names(es[i]) && forall j :: i < j < |es| ==> !Names(es[j])
  }

  predicate Names(e: Entry) { e.className != "" && e.secretName != "" }

  // Where the reference comes from.
  lemma {:induction false} ChosenIs(es: seq<Entry>) returns (found: bool, i: nat)
    ensures found ==> Decides(es, i) && Chosen(es) == ReferenceOf(es[i])
    ensures !found ==> Chosen(es) == Defaults && forall j :: 0 <= j < |es| ==> !Names(es[j])
  {
    found, i := false, 0;
    if es != [] {
      var n := |es| - 1;
      if Names(es[n]) {
        found, i := true, n;
      } else {
        found, i := ChosenIs(es[..n]);
        assert forall j :: 0 <= j < n ==> es[..n][j] == es[j];
      }
    }
  }

  // The Conjur paths are those of the last entry that has any, complete or not; none without.
  lemma {:induction false} PathsAre(es: seq<Entry>)
    ensures forall i :: 0 <= i < |es| && es[i].conjur.Some? && (forall j :: i < j < |es| ==> es[j].conjur.None?) ==> Paths(es) == es[i].conjur.value
    ensures (forall i :: 0 <= i < |es| ==> es[i].conjur.None?) ==> Paths(es) == Conjur("", "")
  {
    if es != [] {
      PathsAre(es[..|es| - 1]);
      assert forall i :: 0 <= i < |es| - 1 ==> es[..|es| - 1][i] == es[i];
    }
  }

  // For an accepted configuration the two loops agree: the provider class is empty exactly for
  // direct credentials; then the reference names the secret the operator creates and finds
  // the credentials under its keys, and otherwise it is the last complete entry's.
  lemma AcceptedAgrees(c: Settings)
    requires Valid(c)
    ensures var r := Chosen(c.entries);
            && (r.className == "" <==> Direct(c))
            && (Direct(c) ==>
                  var (name, data) := CreatedSecret(c);
                  && r.secretName == name && r.usernameKey in data && r.passwordKey in data
                  && data[r.usernameKey] == c.username && data[r.passwordKey] == c.password)
            && (!Direct(c) ==>
                  exists i :: 0 <= i < |c.entries| && Complete(c.entries[i]) && r == ReferenceOf(c.entries[i]) &&
                    forall j :: i < j < |c.entries| ==> !Complete(c.entries[j]))
  {
    var found, i := ChosenIs(c.entries);
    if found { assert Complete(c.entries[i]); }
  }

  // Without the validator the loop can leave keys empty: it does so exactly when the last
  // entry with a class and a secret name lacks a key.
  lemma KeysMissingIff(es: seq<Entry>)
    ensures var r := Chosen(es);
            r.usernameKey == "" || r.passwordKey == "" <==> exists i: nat :: Decides(es, i) && !Complete(es[i])
  {
    var found, i := ChosenIs(es);
    forall j: nat | Decides(es, j) ensures found && j == i { }
  }
}
