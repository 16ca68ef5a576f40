// Merging environment variables and arguments of the custom resource into those of a template.
module Merge {
  import opened Text
  import opened Resource

  // ---------- environment variables ----------

  datatype FieldRef = FieldRef(apiVersion: string, path: string)

  datatype SecretRef = SecretRef(name: string, key: string, optional: Option<bool>)

  // other stands for the sources the merge does not know: ConfigMap keys and resource fields.
  datatype Source = Source(field: Option<FieldRef>, secret: Option<SecretRef>, other: Option<string>)

  datatype Env = Env(name: string, value: Option<string>, from: Option<Source>)

  datatype Override = Override(name: string, value: string)

  // The sentinel for an override that empties a variable.
  const NotAvailable := "NA"

  function Marked(v: string): string { if v == "" then NotAvailable else v }

  // The value an override gives: the sentinel, written by the user or not, means empty.
  function Shown(v: string): string { if v == NotAvailable then "" else v }

  // The value of the last override of a name.
  function LastOf(os: seq<Override>, name: string): Option<string> {
    if os == [] then None
    else if os[|os| - 1].name == name then Some(os[|os| - 1].value)
    else LastOf(os[..|os| - 1], name)
  }

  // A variable no override names: a secret key is kept and wins over a field path, a field
  // keeps its path only, any other source is lost.
  function Kept(e: Env): Env {
    if e.from.None? then e
    else if e.from.value.secret.Some? then Env(e.name, None, Some(Source(None, e.from.value.secret, None)))
    else if e.from.value.field.Some? then Env(e.name, None, Some(Source(Some(FieldRef("", e.from.value.field.value.path)), None, None)))
    else Env(e.name, None, None)
  }

  function Merged(e: Env, common: seq<Override>, specific: seq<Override>): Env {
    var s, c := LastOf(specific, e.name), LastOf(common, e.name);
    if s.Some? then Env(e.name, Some(Shown(s.value)), None)
    else if c.Some? then Env(e.name, Some(Shown(c.value)), None)
    else Kept(e)
  }

  // The last override is the one with the name that no later one has.
  lemma {:induction false} LastOfIs(os: seq<Override>, name: string, v: string)
    ensures LastOf(os, name) == Some(v) <==>
              exists i :: 0 <= i < |os| && os[i] == Override(name, v) && forall j :: i < j < |os| ==> os[j].name != name
    ensures LastOf(os, name).None? <==> forall i :: 0 <= i < |os| ==> os[i].name != name
  {
    if os != [] {
      var n := |os| - 1;
      var init := os[..n];
      LastOfIs(init, name, v);
      if os[n].name != name {
        assert forall i :: 0 <= i < n ==> os[i] == init[i];
      } else {
        assert os[n] == Override(name, os[n].value);
      }
    }
  }

  // What the map of the merge holds.
  ghost predicate Records(m: map<string, string>, common: seq<Override>, specific: seq<Override>) {
    forall n ::
      var v := if LastOf(specific, n).Some? then LastOf(specific, n) else LastOf(common, n);
      if v.Some? then n in m && m[n] == Marked(v.value) else n !in m
  }

  lemma RecordCommon(m: map<string, string>, common: seq<Override>, k: nat)
    requires k < |common| && Records(m, common[..k], [])
    ensures Records(m[common[k].name := Marked(common[k].value)], common[..k + 1], [])
  {
    assert common[..k + 1][..k] == common[..k];
  }

  lemma RecordSpecific(m: map<string, string>, common: seq<Override>, specific: seq<Override>, k: nat)
    requires k < |specific| && Records(m, common, specific[..k])
    ensures Records(m[specific[k].name := Marked(specific[k].value)], common, specific[..k + 1])
  {
    assert specific[..k + 1][..k] == specific[..k];
  }

  // The overrides by name, the specific ones after the common ones.
  method Remember(common: seq<Override>, specific: seq<Override>) returns (temp: map<string, string>)
    ensures Records(temp, common, specific)
  {
    temp := map[];
    for k := 0 to |common|
      invariant Records(temp, common[..k], [])
    {
      RecordCommon(temp, common, k);
      temp := temp[common[k].name := Marked(common[k].value)];
    }
    assert common[..|common|] == common;
    for k := 0 to |specific|
      invariant Records(temp, common, specific[..k])
    {
      RecordSpecific(temp, common, specific, k);
      temp := temp[specific[k].name := Marked(specific[k].value)];
    }
    assert specific[..|specific|] == specific;
  }

  method ReplaceAllApplyCustomEnvs(driver: seq<Env>, common: seq<Override>, specific: seq<Override>) returns (r: seq<Env>)
    ensures r == MergedAll(driver, common, specific)
  {
    var temp := Remember(common, specific);
    r := [];
    for k := 0 to |driver|
      invariant |r| == k && forall i :: 0 <= i < k ==> r[i] == Merged(driver[i], common, specific)
    {
      var e := driver[k];
      if e.name in temp && temp[e.name] != "" {
        r := r + [Env(e.name, Some(if temp[e.name] == NotAvailable then "" else temp[e.name]), None)];
      } else {
        r := r + [Kept(e)];
      }
    }
  }

  function MergedAll(es: seq<Env>, common: seq<Override>, specific: seq<Override>): seq<Env> {
    seq(|es|, i requires 0 <= i < |es| => Merged(es[i], common, specific))
  }

  // Names and order are the template's, no name is added, and merging again changes nothing.
  lemma MergeIsIdempotent(es: seq<Env>, common: seq<Override>, specific: seq<Override>)
    ensures var ms := MergedAll(es, common, specific);
            && MergedAll(ms, common, specific) == ms && |ms| == |es|
            && forall i :: 0 <= i < |es| ==> ms[i].name == es[i].name
  {
    forall i | 0 <= i < |es| ensures Merged(Merged(es[i], common, specific), common, specific) == Merged(es[i], common, specific) { }
  }

  // A variable without override is left exactly as it was if and only if it has a plain
  // value, a secret key alone, or a field path alone with no API version.
  lemma KeptIff(e: Env)
    ensures Kept(e) == e <==>
              e.from.Some? ==>
                var f := e.from.value;
                && e.value.None? && f.other.None? && (f.secret.Some? <==> f.field.None?)
                && (f.field.Some? ==> f.field.value.apiVersion == "")
  {
  }

  // An override comes out as written, except that the sentinel itself comes out empty.
  lemma OverrideIsShown(e: Env, common: seq<Override>, specific: seq<Override>, i: nat)
    requires i < |specific| && specific[i].name == e.name && forall j :: i < j < |specific| ==> specific[j].name != e.name
    ensures Merged(e, common, specific).value == Some(specific[i].value) <==> specific[i].value != NotAvailable
    ensures Merged(e, common, specific).from.None?
  {
    LastOfIs(specific, e.name, specific[i].value);
  }

  // Without a specific override the last common one is shown, empty for the sentinel, and no
  // source is kept.
  lemma CommonIsShown(e: Env, common: seq<Override>, specific: seq<Override>, i: nat)
    requires forall j :: 0 <= j < |specific| ==> specific[j].name != e.name
    requires i < |common| && common[i].name == e.name && forall j :: i < j < |common| ==> common[j].name != e.name
    ensures Merged(e, common, specific) == Env(e.name, Some(if common[i].value == "NA" then "" else common[i].value), None)
  {
    LastOfIs(specific, e.name, "");
    LastOfIs(common, e.name, common[i].value);
  }

  // A specific override wins whatever the common ones say.
  lemma SpecificWins(e: Env, common: seq<Override>, specific: seq<Override>, i: nat)
    requires i < |specific| && specific[i].name == e.name && forall j :: i < j < |specific| ==> specific[j].name != e.name
    ensures Merged(e, common, specific) == Env(e.name, Some(if specific[i].value == "NA" then "" else specific[i].value), None)
  {
    LastOfIs(specific, e.name, specific[i].value);
  }

  // Without any override a plain variable stays as it is; of a source the secret key is kept,
  // else the field path without its API version, else nothing.
  lemma SourceIsKept(e: Env, common: seq<Override>, specific: seq<Override>)
    requires forall j :: 0 <= j < |specific| ==> specific[j].name != e.name
    requires forall j :: 0 <= j < |common| ==> common[j].name != e.name
    ensures var r := Merged(e, common, specific);
            && r.name == e.name
            && (e.from.None? ==> r == e)
            && (e.from.Some? && e.from.value.secret.Some? ==> r.value.None? && r.from == Some(Source(None, e.from.value.secret, None)))
            && (e.from.Some? && e.from.value.secret.None? && e.from.value.field.Some? ==>
                  r.value.None? && r.from == Some(Source(Some(FieldRef("", e.from.value.field.value.path)), None, None)))
            && (e.from.Some? && e.from.value.secret.None? && e.from.value.field.None? ==> r.value.None? && r.from.None?)
  {
    LastOfIs(specific, e.name, "");
    LastOfIs(common, e.name, "");
  }

  // ---------- arguments ----------

  function Key(arg: string): string { Split(arg, '=')[0] }

  // The key is what stands before the first equals sign.
  lemma KeyIs(k: string, v: string)
    requires '=' !in k
    ensures Key(k) == k && Key(k + "=" + v) == k
  {
    SplitHead(k, v, '=');
  }

  // One argument of the resource replaces every argument its key occurs in.
  function Replaced(ds: seq<string>, arg: string): (r: seq<string>)
    ensures |r| == |ds|
    ensures forall i :: 0 <= i < |ds| ==> r[i] == if Contains(ds[i], Key(arg)) then arg else ds[i]
  {
    seq(|ds|, i requires 0 <= i < |ds| => if Contains(ds[i], Key(arg)) then arg else ds[i])
  }

  predicate Matches(ds: seq<string>, arg: string) { exists i :: 0 <= i < |ds| && Contains(ds[i], Key(arg)) }

  function Overwritten(ds: seq<string>, cr: seq<string>): (r: seq<string>)
    ensures |r| == |ds|
  {
    if cr == [] then ds else Replaced(Overwritten(ds, cr[..|cr| - 1]), cr[|cr| - 1])
  }

  function Unmatched(ds: seq<string>, cr: seq<string>): seq<string> {
    if cr == [] then []
    else
      var init, last := cr[..|cr| - 1], cr[|cr| - 1];
      Unmatched(ds, init) + (if Matches(Overwritten(ds, init), last) then [] else [last])
  }

  // The defaults are overwritten in place; the result has the unmatched arguments behind them.
  method ReplaceAllArgs(defaults: array<string>, cr: seq<string>) returns (r: seq<string>)
    modifies defaults
    ensures defaults[..] == Overwritten(old(defaults[..]), cr)
    ensures r == defaults[..] + Unmatched(old(defaults[..]), cr)
  {
    var merge := [];
    for k := 0 to |cr|
      invariant defaults[..] == Overwritten(old(defaults[..]), cr[..k])
      invariant merge == Unmatched(old(defaults[..]), cr[..k])
    {
      var found := ReplaceOne(defaults, cr[k]);
      assert cr[..k + 1][..k] == cr[..k];
      if !found { merge := merge + [cr[k]]; }
    }
    assert cr[..|cr|] == cr;
    r := defaults[..] + merge;
  }

  method ReplaceOne(defaults: array<string>, arg: string) returns (found: bool)
    modifies defaults
    ensures defaults[..] == Replaced(old(defaults[..]), arg)
    ensures found <==> Matches(old(defaults[..]), arg)
  {
    found := false;
    for i := 0 to defaults.Length
      invariant forall j :: 0 <= j < i ==> defaults[j] == Replaced(old(defaults[..]), arg)[j]
      invariant forall j :: i <= j < defaults.Length ==> defaults[j] == old(defaults[..])[j]
      invariant found <==> exists j :: 0 <= j < i && Contains(old(defaults[..])[j], Key(arg))
    {
      if Contains(defaults[i], Key(arg)) {
        defaults[i] := arg;
        found := true;
      }
    }
  }

  // A default that contains no key of the resource's arguments stays as it is.
  lemma {:induction false} UntouchedDefault(ds: seq<string>, cr: seq<string>, i: nat)
    requires i < |ds| && forall j :: 0 <= j < |cr| ==> !Contains(ds[i], Key(cr[j]))
    ensures Overwritten(ds, cr)[i] == ds[i]
  {
    if cr != [] {
      var init := cr[..|cr| - 1];
      assert forall j :: 0 <= j < |init| ==> init[j] == cr[j];
      UntouchedDefault(ds, init, i);
    }
  }

  // Nothing is invented: every argument of the result is a default in its place or one of the
  // resource's.
  lemma {:induction false} NothingInvented(ds: seq<string>, cr: seq<string>, i: nat)
    requires i < |ds|
    ensures Overwritten(ds, cr)[i] == ds[i] || Overwritten(ds, cr)[i] in cr
    ensures forall x :: x in Unmatched(ds, cr) ==> x in cr
  {
    if cr != [] {
      NothingInvented(ds, cr[..|cr| - 1], i);
    }
  }

  // Every argument of the resource is in the result, or a later one whose key it contains
  // took its place.
  lemma {:induction false} ArgSurvives(ds: seq<string>, cr: seq<string>, j: nat)
    requires j < |cr|
    ensures || cr[j] in Overwritten(ds, cr) + Unmatched(ds, cr)
            || exists l :: j < l < |cr| && Contains(cr[j], Key(cr[l]))
  {
    var n := |cr| - 1;
    var init, last := cr[..n], cr[n];
    var was, now := Overwritten(ds, init), Overwritten(ds, cr);
    if j == n {
      if i :| 0 <= i < |was| && Contains(was[i], Key(last)) { assert now[i] == last; }
    } else {
      ArgSurvives(ds, init, j);
      if l :| j < l < n && Contains(init[j], Key(init[l])) {
        assert Contains(cr[j], Key(cr[l]));
      } else if cr[j] in was {
        var i :| 0 <= i < |was| && was[i] == cr[j];
        assert now[i] == cr[j] || Contains(cr[j], Key(cr[n]));
      }
    }
  }

  lemma KeyOccurs(d: string, k: string, u: string, v: string)
    requires '=' !in k && (d == k || d == k + "=" + u)
    ensures Contains(d, Key(k + "=" + v))
  {
    KeyIs(k, v);
    assert d[0..] == d && k <= d;
  }

  // An argument k=v of the resource takes the place of every default k=u, or k alone, that no
  // earlier argument has replaced, and keeps it unless a later one's key occurs in k=v.
  lemma {:induction false} ArgReplacesDefault(ds: seq<string>, cr: seq<string>, i: nat, j: nat, k: string, u: string, v: string)
    requires i < |ds| && j < |cr| && '=' !in k && cr[j] == k + "=" + v && (ds[i] == k || ds[i] == k + "=" + u)
    requires forall l :: 0 <= l < j ==> !Contains(ds[i], Key(cr[l]))
    requires forall l :: j < l < |cr| ==> !Contains(cr[j], Key(cr[l]))
    ensures Overwritten(ds, cr)[i] == k + "=" + v
    decreases |cr|
  {
    var n := |cr| - 1;
    var init := cr[..n];
    assert forall l :: 0 <= l < n ==> init[l] == cr[l];
    if j == n {
      UntouchedDefault(ds, init, i);
      KeyOccurs(ds[i], k, u, v);
    } else {
      ArgReplacesDefault(ds, init, i, j, k, u, v);
    }
  }

  // ---------- overriding by key ----------

  // The default, or the last argument of the resource with the same key.
  function ByKey(d: string, cr: seq<string>): string {
    if cr == [] then d
    else if Key(cr[|cr| - 1]) == Key(d) then cr[|cr| - 1]
    else ByKey(d, cr[..|cr| - 1])
  }

  predicate HasKey(ds: seq<string>, arg: string) { exists i :: 0 <= i < |ds| && Key(ds[i]) == Key(arg) }

  function NewKeys(ds: seq<string>, cr: seq<string>): seq<string> {
    if cr == [] then []
    else NewKeys(ds, cr[..|cr| - 1]) + (if HasKey(ds, cr[|cr| - 1]) then [] else [cr[|cr| - 1]])
  }

  function KeyWise(ds: seq<string>, cr: seq<string>): seq<string> {
    seq(|ds|, i requires 0 <= i < |ds| => ByKey(ds[i], cr)) + NewKeys(ds, cr)
  }

  // No key of the resource occurs in an argument with a different key.
  ghost predicate Separate(xs: seq<string>, cr: seq<string>) {
    forall i, j :: 0 <= i < |xs| && 0 <= j < |cr| && Contains(xs[i], Key(cr[j])) ==> Key(xs[i]) == Key(cr[j])
  }

  lemma {:induction false} SplitStarts(s: string, c: char)
    ensures Split(s, c)[0] <= s
  {
    if s != [] && s[0] != c { SplitStarts(s[1..], c); }
  }

  lemma ContainsOwnKey(x: string)
    ensures Contains(x, Key(x))
  {
    SplitStarts(x, '=');
    assert x[0..] == x;
  }

  lemma {:induction false} ByKeyIs(d: string, cr: seq<string>)
    ensures Key(ByKey(d, cr)) == Key(d) && (ByKey(d, cr) == d || ByKey(d, cr) in cr)
  {
    if cr != [] { ByKeyIs(d, cr[..|cr| - 1]); }
  }

  lemma {:induction false} OverwrittenByKey(ds: seq<string>, cr: seq<string>, i: nat)
    requires i < |ds| && Separate(ds, cr) && Separate(cr, cr)
    ensures Overwritten(ds, cr)[i] == ByKey(ds[i], cr)
  {
    if cr != [] {
      var n := |cr| - 1;
      var init, last := cr[..n], cr[n];
      assert forall j :: 0 <= j < n ==> init[j] == cr[j];
      OverwrittenByKey(ds, init, i);
      ByKeyIs(ds[i], init);
      var x := ByKey(ds[i], init);
      assert Contains(x, Key(last)) <==> Key(x) == Key(last) by {
        ContainsOwnKey(x);
        if x in init { var j :| 0 <= j < n && init[j] == x; assert cr[j] == x; }
      }
    }
  }

  // Where no key occurs in an argument with a different key, the result is the override by
  // key: each default gives way to the last argument with its key, and new keys follow.
  lemma {:induction false} ArgsOverrideByKey(ds: seq<string>, cr: seq<string>)
    requires Separate(ds, cr) && Separate(cr, cr)
    ensures Overwritten(ds, cr) + Unmatched(ds, cr) == KeyWise(ds, cr)
  {
    forall i | 0 <= i < |ds| ensures Overwritten(ds, cr)[i] == ByKey(ds[i], cr) { OverwrittenByKey(ds, cr, i); }
    UnmatchedByKey(ds, cr);
  }

  lemma {:induction false} UnmatchedByKey(ds: seq<string>, cr: seq<string>)
    requires Separate(ds, cr) && Separate(cr, cr)
    ensures Unmatched(ds, cr) == NewKeys(ds, cr)
  {
    if cr != [] {
      var n := |cr| - 1;
      var init, last := cr[..n], cr[n];
      assert forall j :: 0 <= j < n ==> init[j] == cr[j];
      UnmatchedByKey(ds, init);
      var was := Overwritten(ds, init);
      forall i | 0 <= i < |ds| ensures Contains(was[i], Key(last)) <==> Key(ds[i]) == Key(last) {
        OverwrittenByKey(ds, init, i);
        ByKeyIs(ds[i], init);
        ContainsOwnKey(was[i]);
        if was[i] in init { var j :| 0 <= j < n && init[j] == was[i]; assert cr[j] == was[i]; }
      }
    }
  }

  lemma OneArg(ds: seq<string>, arg: string, i: nat)
    requires i < |ds|
    ensures Overwritten(ds, [arg])[i] == if Contains(ds[i], Key(arg)) then arg else ds[i]
    ensures KeyWise(ds, [arg])[i] == if Key(ds[i]) == Key(arg) then arg else ds[i]
  {
    assert [arg][..0] == [];
    assert Overwritten(ds, []) == ds && ByKey(ds[i], []) == ds[i];
  }

  // For one argument the condition is exact: the result is the override by key if and only if
  // its key occurs in no default with a different key.
  lemma OneArgIff(ds: seq<string>, arg: string)
    ensures Overwritten(ds, [arg]) + Unmatched(ds, [arg]) == KeyWise(ds, [arg]) <==> Separate(ds, [arg])
  {
    if Separate(ds, [arg]) {
      ArgsOverrideByKey(ds, [arg]);
    } else {
      var i, j :| 0 <= i < |ds| && 0 <= j < 1 && Contains(ds[i], Key([arg][j])) && Key(ds[i]) != Key([arg][j]);
      OneArg(ds, arg, i);
      assert (Overwritten(ds, [arg]) + Unmatched(ds, [arg]))[i] == arg;
    }
  }
}
