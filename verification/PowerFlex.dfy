// The PowerFlex secret: management addresses and zones.
module PowerFlex {
  import opened Text
  import opened Ipv4
  import opened Resource

  datatype Zone = Zone(name: string, labelKey: string)

  // One array of the secret.
  datatype StorageArray = StorageArray(systemId: string, username: string, password: string, endpoint: string,
                                       isDefault: bool, mdm: string, zone: Zone)

  // What the secret holds: it cannot be read, has no config, the config is no JSON, or it is a
  // list of arrays; mistyped is a list the decoder complains about and fills as far as it gets.
  datatype Secret = Missing | Empty | Malformed | Mistyped(arrays: seq<StorageArray>) | Arrays(arrays: seq<StorageArray>)

  datatype Outcome = Accepted(value: string) | Rejected

  // ---------- addresses ----------

  // The first k pieces trimmed, the others as they came.
  function Partly(ps: seq<string>, k: nat): (r: seq<string>)
    ensures |r| == |ps| && forall i :: 0 <= i < |ps| ==> r[i] == if i < k then TrimSpace(ps[i]) else ps[i]
  {
    seq(|ps|, i requires 0 <= i < |ps| => if i < k then TrimSpace(ps[i]) else ps[i])
  }

  // The comma-separated pieces, trimmed.
  function Addresses(s: string): seq<string> { Partly(Split(s, ','), |Split(s, ',')|) }

  predicate AllIpv4(ts: seq<string>) { forall i :: 0 <= i < |ts| ==> IsIpv4Regex(ts[i]) }

  // k is where the first piece fails, or the length.
  ghost predicate FailsAt(valid: string -> bool, ps: seq<string>, k: nat) {
    k <= |ps| && (k < |ps| ==> !valid(TrimSpace(ps[k]))) && forall i :: 0 <= i < k ==> valid(TrimSpace(ps[i]))
  }

  // valid is the address check; loops below know it by name only.
  ghost predicate IsAddressCheck(valid: string -> bool) { forall s {:trigger IsIpv4Regex(s)} :: valid(s) == IsIpv4Regex(s) }

  // The pieces are trimmed in place and checked one by one. A failure returns what had been
  // joined before it.
  method ValidateIPAddress(s: string) returns (value: string, ok: bool)
    ensures ok <==> AllIpv4(Addresses(s))
    ensures ok ==> value == Join(Addresses(s), ',')
    ensures exists k: nat :: FailsAt(IsIpv4Regex, Split(s, ','), k) && value == if k == 0 then "" else Join(Partly(Split(s, ','), k), ',')
  {
    var ps := Split(s, ',');
    var trim := new string[|ps|](i requires 0 <= i < |ps| => ps[i]);
    assert trim[..] == ps;
    value, ok := CheckPieces(trim, ps, IsIpv4Regex);
    FailsAtEnd(ps);
  }

  lemma FailsAtEnd(ps: seq<string>)
    ensures FailsAt(IsIpv4Regex, ps, |ps|) <==> AllIpv4(Partly(ps, |ps|))
  {
    if AllIpv4(Partly(ps, |ps|)) {
      forall i | 0 <= i < |ps| ensures IsIpv4Regex(TrimSpace(ps[i])) { assert Partly(ps, |ps|)[i] == TrimSpace(ps[i]); }
    }
  }

  method CheckPieces(trim: array<string>, ps: seq<string>, ghost valid: string -> bool) returns (value: string, ok: bool)
    requires trim[..] == ps && ps != [] && IsAddressCheck(valid)
    modifies trim
    ensures exists k: nat ::
              FailsAt(valid, ps, k) && value == (if k == 0 then "" else Join(Partly(ps, k), ',')) && (ok <==> k == |ps|)
  {
    value := "";
    for i := 0 to trim.Length
      invariant trim[..] == Partly(ps, i)
      invariant forall j :: 0 <= j < i ==> valid(TrimSpace(ps[j]))
      invariant value == if i == 0 then "" else Join(Partly(ps, i), ',')
    {
      assert trim[i] == Partly(ps, i)[i] == ps[i];
      trim[i] := TrimSpace(trim[i]);
      PartlyStep(ps, i);
      assert trim[..] == Partly(ps, i + 1);
      var good := Check(trim[i], valid);
      if !good {
        assert FailsAt(valid, ps, i);
        return value, false;
      }
      value := Join(trim[..], ',');
    }
    assert FailsAt(valid, ps, |ps|);
    return value, true;
  }

  lemma PartlyStep(ps: seq<string>, i: nat)
    requires i < |ps|
    ensures Partly(ps, i + 1) == Partly(ps, i)[i := TrimSpace(ps[i])]
  {
  }

  method Check(s: string, ghost valid: string -> bool) returns (good: bool)
    requires IsAddressCheck(valid)
    ensures good == valid(s)
  {
    good := IsIpv4Regex(s);
  }

  // The pieces are ts, each with any white space around it.
  ghost predicate AllPadded(ps: seq<string>, ts: seq<string>) {
    |ps| == |ts| && forall i :: 0 <= i < |ts| ==> Padded(ps[i], ts[i])
  }

  lemma PaddedAddress(p: string, t: string)
    requires Padded(p, t) && IsIpv4Regex(t)
    ensures TrimSpace(p) == t && ',' !in p
  {
    Ipv4Chars(t);
    TrimPadded(p, t);
    var a, b :| Spaces(a) && Spaces(b) && p == a + t + b;
  }

  lemma PaddedAreTrimmed(ps: seq<string>, ts: seq<string>)
    requires AllIpv4(ts) && AllPadded(ps, ts)
    ensures Partly(ps, |ps|) == ts && forall i :: 0 <= i < |ps| ==> ',' !in ps[i]
  {
    forall i | 0 <= i < |ps| ensures TrimSpace(ps[i]) == ts[i] && ',' !in ps[i] { PaddedAddress(ps[i], ts[i]); }
  }

  lemma TrimmedArePadded(ps: seq<string>)
    ensures AllPadded(ps, Partly(ps, |ps|))
  {
    forall i | 0 <= i < |ps| ensures Padded(ps[i], Partly(ps, |ps|)[i]) { TrimCutsSpaces(ps[i]); }
  }

  // A string is accepted with the addresses ts if and only if its pieces are ts with any white
  // space around the commas.
  lemma SpacedIff(s: string, ts: seq<string>)
    ensures AllIpv4(ts) && AllPadded(Split(s, ','), ts) <==> AllIpv4(Addresses(s)) && Addresses(s) == ts
  {
    if AllIpv4(ts) && AllPadded(Split(s, ','), ts) { PaddedAreTrimmed(Split(s, ','), ts); }
    TrimmedArePadded(Split(s, ','));
  }

  // Addresses written with any white space around them and joined by commas are accepted, and
  // come out as the addresses joined.
  lemma SpacedJoin(ts: seq<string>, ps: seq<string>)
    requires ts != [] && AllIpv4(ts) && AllPadded(ps, ts)
    ensures AllIpv4(Addresses(Join(ps, ','))) && Addresses(Join(ps, ',')) == ts
  {
    PaddedAreTrimmed(ps, ts);
    SplitJoin(ps, ',');
    SpacedIff(Join(ps, ','), ts);
  }

  // Splitting an accepted value gives the addresses back, and accepting it again gives it
  // back: validation is a fixed point on its results.
  lemma AcceptedIsFixed(s: string)
    requires AllIpv4(Addresses(s))
    ensures var v := Join(Addresses(s), ','); Split(v, ',') == Addresses(s) && Addresses(v) == Addresses(s)
  {
    var ts := Addresses(s);
    forall i | 0 <= i < |ts| ensures ',' !in ts[i] && Trimmed(ts[i]) { Ipv4Chars(ts[i]); }
    SplitJoin(ts, ',');
  }

  lemma {:induction false} JoinLacks(ts: seq<string>, c: char, d: char)
    requires d != c && forall i :: 0 <= i < |ts| ==> d !in ts[i]
    ensures d !in Join(ts, c)
  {
    if |ts| > 1 { JoinLacks(ts[1..], c, d); }
  }

  // ---------- the management addresses of all arrays ----------

  predicate Filled(a: StorageArray) { a.systemId != "" && a.username != "" && a.password != "" && a.endpoint != "" }

  // Complete, with valid addresses or none.
  predicate Good(a: StorageArray) { Filled(a) && (a.mdm == "" || AllIpv4(Addresses(a.mdm))) }

  // The addresses an array brings, if it has any.
  function Part(a: StorageArray): Option<string> {
    if a.mdm == "" then None else Some(Join(Addresses(a.mdm), ','))
  }

  // An array is acceptable after those before it: good, under a system ID of its own, and not
  // a second default.
  ghost predicate Acceptable(good: StorageArray -> bool, cs: seq<StorageArray>, i: nat)
    requires i < |cs|
  {
    && good(cs[i])
    && (forall j :: 0 <= j < i ==> cs[j].systemId != cs[i].systemId)
    && (cs[i].isDefault ==> forall j :: 0 <= j < i ==> !cs[j].isDefault)
  }

  ghost predicate AllAcceptable(cs: seq<StorageArray>) { forall i :: 0 <= i < |cs| ==> Acceptable(Good, cs, i) }

  function Parts(part: StorageArray -> Option<string>, cs: seq<StorageArray>): (vs: seq<Option<string>>)
    ensures |vs| == |cs| && forall i :: 0 <= i < |cs| ==> vs[i] == part(cs[i])
  {
    seq(|cs|, i requires 0 <= i < |cs| => part(cs[i]))
  }

  // The value built from them: each goes behind an ampersand, unless it is the first array's.
  function Value(vs: seq<Option<string>>, n: nat): string
    requires n <= |vs|
  {
    if n == 0 then "" else Value(vs, n - 1) + Lead(n - 1, vs[n - 1])
  }

  function Given(vs: seq<Option<string>>, n: nat): seq<string>
    requires n <= |vs|
  {
    if n == 0 then [] else Given(vs, n - 1) + (if vs[n - 1].None? then [] else [vs[n - 1].value])
  }

  function Ids(cs: seq<StorageArray>, n: nat): set<string>
    requires n <= |cs|
  {
    if n == 0 then {} else Ids(cs, n - 1) + {cs[n - 1].systemId}
  }

  lemma {:induction false} InIds(cs: seq<StorageArray>, n: nat, id: string)
    requires n <= |cs|
    ensures id in Ids(cs, n) <==> exists j :: 0 <= j < n && cs[j].systemId == id
  {
    if n > 0 { InIds(cs, n - 1, id); }
  }

  function Lead(i: nat, part: Option<string>): string {
    if part.None? then "" else if i == 0 then part.value else "&" + part.value
  }

  // How far the arrays are acceptable.
  ghost predicate AcceptableTo(good: StorageArray -> bool, cs: seq<StorageArray>, n: nat)
    requires n <= |cs|
  {
    n == 0 || (AcceptableTo(good, cs, n - 1) && Acceptable(good, cs, n - 1))
  }

  lemma {:induction false} AcceptableAll(good: StorageArray -> bool, cs: seq<StorageArray>, n: nat)
    requires n <= |cs|
    ensures AcceptableTo(good, cs, n) <==> forall i :: 0 <= i < n ==> Acceptable(good, cs, i)
  {
    if n > 0 { AcceptableAll(good, cs, n - 1); }
  }

  // The loop knows what makes an array good and what it brings by name only.
  ghost predicate Describes(good: StorageArray -> bool, part: StorageArray -> Option<string>) {
    && (forall a {:trigger Good(a)} :: good(a) == Good(a))
    && (forall a {:trigger Part(a)} :: part(a) == Part(a))
  }

  method GetMDMFromSecret(secret: Secret) returns (r: Outcome)
    ensures r.Accepted? <==> (secret.Arrays? || secret.Mistyped?) && AllAcceptable(secret.arrays)
    ensures r.Accepted? ==> r.value == Value(Parts(Part, secret.arrays), |secret.arrays|)
  {
    if secret.Missing? || secret.Empty? || secret.Malformed? { return Rejected; }
    r := CollectMdm(secret.arrays, Good, Part);
  }

  method CollectMdm(cs: seq<StorageArray>, ghost good: StorageArray -> bool, ghost part: StorageArray -> Option<string>)
      returns (r: Outcome)
    requires Describes(good, part)
    ensures r.Accepted? <==> forall i :: 0 <= i < |cs| ==> Acceptable(good, cs, i)
    ensures r.Accepted? ==> r.value == Value(Parts(part, cs), |cs|)
  {
    var value, defaults := "", 0;
    var seen: set<string> := {};
    for i := 0 to |cs|
      invariant AcceptableTo(good, cs, i) && value == Value(Parts(part, cs), i)
      invariant seen == Ids(cs, i) && defaults == Defaults(cs, i) <= 1
    {
      var ok, p;
      ok, p, seen, defaults := Admit(cs, i, seen, defaults, good, part);
      if !ok { return Rejected; }
      value := value + Lead(i, p);
    }
    AcceptableAll(good, cs, |cs|);
    return Accepted(value);
  }

  // One round of the loop.
  method Admit(cs: seq<StorageArray>, i: nat, seen: set<string>, defaults: nat,
               ghost good: StorageArray -> bool, ghost part: StorageArray -> Option<string>)
      returns (ok: bool, p: Option<string>, seen': set<string>, defaults': nat)
    requires i < |cs| && seen == Ids(cs, i) && defaults == Defaults(cs, i) <= 1 && Describes(good, part)
    ensures ok <==> Acceptable(good, cs, i)
    ensures ok ==> p == part(cs[i]) && seen' == Ids(cs, i + 1) && defaults' == Defaults(cs, i + 1) <= 1
  {
    seen', defaults' := seen, defaults;
    ok, p := CheckArray(cs[i]);
    if !ok { return; }
    InIds(cs, i, cs[i].systemId);
    DefaultsAmong(cs, i);
    if cs[i].systemId in seen { return false, p, seen', defaults'; }
    seen' := seen + {cs[i].systemId};
    if cs[i].isDefault { defaults' := defaults + 1; }
    if defaults' > 1 { return false, p, seen', defaults'; }
  }

  function Defaults(cs: seq<StorageArray>, n: nat): nat
    requires n <= |cs|
  {
    if n == 0 then 0 else Defaults(cs, n - 1) + (if cs[n - 1].isDefault then 1 else 0)
  }

  lemma {:induction false} DefaultsAmong(cs: seq<StorageArray>, n: nat)
    requires n <= |cs|
    ensures Defaults(cs, n) > 0 <==> exists j :: 0 <= j < n && cs[j].isDefault
  {
    if n > 0 { DefaultsAmong(cs, n - 1); }
  }

  method CheckArray(a: StorageArray) returns (ok: bool, part: Option<string>)
    ensures ok <==> Good(a)
    ensures ok ==> part == Part(a)
  {
    ok, part := Filled(a), None;
    if ok && a.mdm != "" {
      var value;
      value, ok := ValidateIPAddress(a.mdm);
      part := Some(value);
    }
  }

  // What acceptance means, field by field.
  lemma AcceptedArrays(cs: seq<StorageArray>)
    ensures AllAcceptable(cs) <==>
              && (forall i :: 0 <= i < |cs| ==> cs[i].systemId != "" && cs[i].username != "" && cs[i].password != "" && cs[i].endpoint != "")
              && (forall i :: 0 <= i < |cs| && cs[i].mdm != "" ==> AllIpv4(Addresses(cs[i].mdm)))
              && (forall i, j :: 0 <= i < j < |cs| ==> cs[i].systemId != cs[j].systemId && !(cs[i].isDefault && cs[j].isDefault))
  {
    if AllAcceptable(cs) {
      forall i | 0 <= i < |cs| ensures Good(cs[i]) { assert Acceptable(Good, cs, i); }
      forall i, j | 0 <= i < j < |cs| ensures cs[i].systemId != cs[j].systemId && !(cs[i].isDefault && cs[j].isDefault) {
        assert Acceptable(Good, cs, j);
      }
    }
  }

  // ---------- the round trip ----------

  lemma {:induction false} JoinSnoc(ps: seq<string>, p: string, c: char)
    ensures Join(ps + [p], c) == if ps == [] then p else Join(ps, c) + [c] + p
  {
    if |ps| >= 1 {
      assert (ps + [p])[1..] == ps[1..] + [p];
      JoinSnoc(ps[1..], p, c);
      if |ps| > 1 {
        assert Join(ps + [p], c) == ps[0] + [c] + (Join(ps[1..], c) + [c] + p);
      }
    } else {
      assert ps + [p] == [p];
    }
  }

  lemma AppendPart(lead: string, gs: seq<string>, p: string)
    requires gs != []
    ensures lead + Join(gs, '&') + ("&" + p) == lead + Join(gs + [p], '&')
  {
    var j := Join(gs, '&');
    JoinSnoc(gs, p, '&');
    assert lead + j + ("&" + p) == lead + (j + ['&'] + p);
  }

  // Joined by ampersands when the first array has addresses, behind a stray one otherwise.
  lemma {:induction false} ValueIsJoined(vs: seq<Option<string>>, n: nat)
    requires 0 < n <= |vs|
    ensures vs[0].Some? ==> Given(vs, n) != []
    ensures Value(vs, n) == if Given(vs, n) == [] then "" else (if vs[0].Some? then "" else "&") + Join(Given(vs, n), '&')
  {
    assert Given(vs, 0) == [] && Value(vs, 0) == "";
    if n > 1 {
      ValueIsJoined(vs, n - 1);
      var gs := Given(vs, n - 1);
      if vs[n - 1].None? {
        assert Given(vs, n) == gs && Value(vs, n) == Value(vs, n - 1);
      } else if gs != [] {
        AppendPart(if vs[0].Some? then "" else "&", gs, vs[n - 1].value);
      } else {
        FirstPart(vs, n);
      }
    } else if vs[0].Some? {
      assert Given(vs, 1) == [vs[0].value];
    }
  }

  lemma FirstPart(vs: seq<Option<string>>, n: nat)
    requires 1 < n <= |vs| && Given(vs, n - 1) == [] && Value(vs, n - 1) == "" && vs[n - 1].Some?
    ensures Given(vs, n) == [vs[n - 1].value] && Value(vs, n) == "&" + Join(Given(vs, n), '&')
  {
  }

  lemma {:induction false} GivenLacks(vs: seq<Option<string>>, n: nat)
    requires n <= |vs| && forall i :: 0 <= i < n && vs[i].Some? ==> '&' !in vs[i].value
    ensures forall k :: 0 <= k < |Given(vs, n)| ==> '&' !in Given(vs, n)[k]
  {
    if n > 0 { GivenLacks(vs, n - 1); }
  }

  // A stray ampersand puts an empty piece in front.
  lemma StrayPiece(gs: seq<string>)
    requires gs != [] && forall k :: 0 <= k < |gs| ==> '&' !in gs[k]
    ensures Split("&" + Join(gs, '&'), '&') == [""] + gs
  {
    SplitJoin(gs, '&');
    SplitHead("", Join(gs, '&'), '&');
    assert "" + ['&'] + Join(gs, '&') == "&" + Join(gs, '&');
  }

  lemma SplitsBack(vs: seq<Option<string>>)
    requires forall i :: 0 <= i < |vs| && vs[i].Some? ==> '&' !in vs[i].value
    ensures Split(Value(vs, |vs|), '&') == Given(vs, |vs|) <==> vs != [] && vs[0].Some?
  {
    if vs != [] {
      ValueIsJoined(vs, |vs|);
      GivenLacks(vs, |vs|);
      SplitsJoined(Given(vs, |vs|), vs[0].Some?, Value(vs, |vs|));
    }
  }

  // Joined strings split back if and only if there is no stray separator in front.
  lemma SplitsJoined(gs: seq<string>, plain: bool, v: string)
    requires (forall k :: 0 <= k < |gs| ==> '&' !in gs[k]) && (plain ==> gs != [])
    requires v == if gs == [] then "" else (if plain then "" else "&") + Join(gs, '&')
    ensures Split(v, '&') == gs <==> plain
  {
    if gs != [] {
      if plain {
        SplitJoin(gs, '&');
        assert v == Join(gs, '&');
      } else {
        StrayPiece(gs);
      }
    }
  }

  lemma PartLacks(a: StorageArray)
    requires Good(a) && Part(a).Some?
    ensures '&' !in Part(a).value && Split(Part(a).value, ',') == Addresses(a.mdm)
  {
    var ts := Addresses(a.mdm);
    forall i | 0 <= i < |ts| ensures '&' !in ts[i] { Ipv4Chars(ts[i]); }
    JoinLacks(ts, ',', '&');
    AcceptedIsFixed(a.mdm);
  }

  // Splitting the accepted value on ampersands gives exactly what the arrays bring, in order,
  // if and only if the first array brings something; splitting that on commas gives the
  // validated addresses.
  lemma SplitsBackIff(cs: seq<StorageArray>)
    requires AllAcceptable(cs)
    ensures var vs := Parts(Part, cs);
            && (Split(Value(vs, |cs|), '&') == Given(vs, |cs|) <==> cs != [] && cs[0].mdm != "")
            && forall i :: 0 <= i < |cs| && vs[i].Some? ==> Split(vs[i].value, ',') == Addresses(cs[i].mdm)
  {
    var vs := Parts(Part, cs);
    forall i | 0 <= i < |cs| && vs[i].Some? ensures '&' !in vs[i].value && Split(vs[i].value, ',') == Addresses(cs[i].mdm) {
      assert Acceptable(Good, cs, i);
      PartLacks(cs[i]);
    }
    SplitsBack(vs);
  }

  // ---------- zones ----------

  // Every array is identified, and either none has a zone or all have a named one under one
  // common label key.
  ghost predicate Zoned(cs: seq<StorageArray>) {
    && (forall i :: 0 <= i < |cs| ==> cs[i].systemId != "")
    && (|| (forall i :: 0 <= i < |cs| ==> cs[i].zone == Zone("", ""))
        || (exists key :: Under(cs, key)))
  }

  predicate Under(cs: seq<StorageArray>, key: string) {
    key != "" && forall i :: 0 <= i < |cs| ==> cs[i].zone.labelKey == key && cs[i].zone.name != ""
  }

  method ValidateZonesInSecret(secret: Secret) returns (ok: bool)
    ensures ok <==> secret.Arrays? && Zoned(secret.arrays)
  {
    if !secret.Arrays? { return false; }
    ok := ValidateZones(secret.arrays);
  }

  method ValidateZones(cs: seq<StorageArray>) returns (ok: bool)
    ensures ok <==> Zoned(cs)
  {
    var key, zoned := "", 0;
    for i := 0 to |cs|
      invariant forall j :: 0 <= j < i ==> cs[j].systemId != ""
      invariant forall j :: 0 <= j < i && cs[j].zone != Zone("", "") ==> cs[j].zone.labelKey == key && cs[j].zone.name != ""
      invariant 0 <= zoned <= i && (key == "" <==> zoned == 0)
      invariant zoned == 0 ==> forall j :: 0 <= j < i ==> cs[j].zone == Zone("", "")
      invariant zoned > 0 ==> exists j :: 0 <= j < i && cs[j].zone != Zone("", "")
      invariant zoned == i ==> forall j :: 0 <= j < i ==> cs[j].zone != Zone("", "")
      invariant zoned < i ==> exists j :: 0 <= j < i && cs[j].zone == Zone("", "")
    {
      var c := cs[i];
      if c.systemId == "" { return false; }
      if c.zone != Zone("", "") {
        if c.zone.labelKey == "" { return false; }
        if key == "" {
          key := c.zone.labelKey;
        } else if key != c.zone.labelKey {
          return false;
        }
        if c.zone.name == "" { return false; }
        zoned := zoned + 1;
      }
    }
    ok := !(zoned > 0 && zoned != |cs|);
    if ok && zoned > 0 { assert Under(cs, key); }
  }
}
