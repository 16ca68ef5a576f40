// Version parsing, the version order and the upgrade graph.
module Versions {
  import opened Text

  datatype Result<+T> = Ok(value: T) | Err

  const MaxInt := 0x7FFF_FFFF_FFFF_FFFF
  const MaxUint := 0xFFFF_FFFF_FFFF_FFFF

  // strconv.Atoi with its error dropped: 0 on a malformed number, saturated on one out of
  // range. The digits are read left to right, so an overflow before a stray character wins.
  function Digits(s: string, n: nat): Result<nat> {
    if s == [] then Ok(n)
    else if !('0' <= s[0] <= '9') then Err
    else
      var v := n * 10 + (s[0] as int - '0' as int);
      if v > MaxUint then Ok(MaxUint) else Digits(s[1..], v)
  }

  function Atoi(s: string): (r: int)
    ensures -MaxInt - 1 <= r <= MaxInt
  {
    var signed := s != [] && (s[0] == '-' || s[0] == '+');
    var body := if signed then s[1..] else s;
    if body == [] then 0
    else
      match Digits(body, 0)
      case Err => 0
      case Ok(n) =>
        if signed && s[0] == '-' then (if n > MaxInt then -MaxInt - 1 else 0 - n)
        else (if n > MaxInt then MaxInt else n)
  }

  function TrimV(s: string): string {
    if s != [] && s[0] == 'v' then TrimV(s[1..]) else s
  }

  datatype Version = Version(major: int, minor: int)

  // versionParser: three dot-separated pieces, of which the last is never looked at.
  function Parse(s: string): Result<Version> {
    var ps := Split(TrimV(s), '.');
    if |ps| != 3 then Err else Ok(Version(Atoi(ps[0]), Atoi(ps[1])))
  }

  predicate AtLeast(v: Version, least: Version) {
    v.major > least.major || (v.major == least.major && v.minor >= least.minor)
  }

  function MinVersionCheck(least: string, v: string): Result<bool> {
    match Parse(least)
    case Err => Err
    case Ok(l) =>
      match Parse(v)
      case Err => Err
      case Ok(w) => Ok(AtLeast(w, l))
  }

  predicate Parses(s: string) { Parse(s).Ok? }

  // least <= v, as the callers that drop the error read it.
  predicate Meets(least: string, v: string) { MinVersionCheck(least, v) == Ok(true) }

  // The upgrade-path.yaml files of one component: version directory to minUpgradePath.
  type Paths = map<string, string>

  function IsValidUpgrade(paths: Paths, was: string, now: string): Result<bool> {
    if was == now then Ok(true)
    else
      var up := Meets(was, now);
      var dir := if up then now else was;
      if dir !in paths then Err
      else if Meets(paths[dir], if up then was else now) then Ok(true)
      else Err
  }

  predicate ValidHop(paths: Paths, was: string, now: string) { IsValidUpgrade(paths, was, now) == Ok(true) }

  // ---------- what is read ----------

  function Capped(n: nat): int { if n > MaxInt then MaxInt else n }

  // Reading the decimal form of a number, up to the overflow of an unsigned word.
  lemma {:induction false} DigitsOfDecimal(n: nat, rest: string)
    ensures Digits(Decimal(n) + rest, 0) == if n <= MaxUint then Digits(rest, n) else Ok(MaxUint)
  {
    if n < 10 {
      assert ([Digit(n)] + rest)[1..] == rest;
    } else {
      var d := [Digit(n % 10)];
      assert Decimal(n) + rest == Decimal(n / 10) + (d + rest);
      DigitsOfDecimal(n / 10, d + rest);
      assert (d + rest)[1..] == rest;
    }
  }

  // A number is read as itself, saturated at the largest or smallest signed word.
  lemma AtoiReads(n: nat)
    ensures Atoi(Decimal(n)) == Capped(n)
    ensures Atoi("-" + Decimal(n)) == if n > MaxInt then -MaxInt - 1 else 0 - n
  {
    assert Decimal(n) + [] == Decimal(n);
    DigitsOfDecimal(n, []);
    assert ("-" + Decimal(n))[1..] == Decimal(n);
  }

  function Written(major: nat, minor: nat, patch: string): string {
    Decimal(major) + ['.'] + (Decimal(minor) + ['.'] + patch)
  }

  // A version is read as its two numbers, with or without a leading v, whatever its last piece.
  lemma VersionReads(major: nat, minor: nat, patch: string)
    requires '.' !in patch
    ensures Parse(Written(major, minor, patch)) == Ok(Version(Capped(major), Capped(minor)))
    ensures Parse("v" + Written(major, minor, patch)) == Ok(Version(Capped(major), Capped(minor)))
  {
    var s := Written(major, minor, patch);
    assert s[0] == Decimal(major)[0];
    assert TrimV(s) == s;
    assert ("v" + s)[1..] == s;
    ThreePieces(Decimal(major), Decimal(minor), patch);
    AtoiReads(major);
    AtoiReads(minor);
  }

  // Exactly the strings of three pieces are versions, whatever the pieces.
  lemma PiecesIff(ps: seq<string>)
    requires ps != [] && (forall i :: 0 <= i < |ps| ==> '.' !in ps[i]) && (ps[0] != [] ==> ps[0][0] != 'v')
    ensures Parses(Join(ps, '.')) <==> |ps| == 3
  {
    var s := Join(ps, '.');
    assert s != [] ==> s[0] != 'v';
    SplitJoin(ps, '.');
  }

  // Any number of leading v is ignored.
  lemma LeadingV(s: string)
    ensures Parse("v" + s) == Parse(s)
  {
    assert ("v" + s)[1..] == s;
  }

  // MinVersionCheck compares the numbers, the major one first, and ignores the rest.
  lemma CheckCompares(a: nat, b: nat, p: string, c: nat, d: nat, q: string)
    requires a <= MaxInt && b <= MaxInt && c <= MaxInt && d <= MaxInt && '.' !in p && '.' !in q
    ensures MinVersionCheck("v" + Written(a, b, p), "v" + Written(c, d, q)) == Ok(c > a || (c == a && d >= b))
  {
    VersionReads(a, b, p);
    VersionReads(c, d, q);
  }

  // ---------- the order and the graph ----------

  // MinVersionCheck orders the parseable versions: total and transitive, with two versions
  // tied exactly when major and minor agree.
  lemma VersionOrder(a: string, b: string, c: string)
    requires Parses(a) && Parses(b) && Parses(c)
    ensures Meets(a, b) || Meets(b, a)
    ensures Meets(a, b) && Meets(b, c) ==> Meets(a, c)
    ensures Meets(a, b) && Meets(b, a) <==> Parse(a) == Parse(b)
  {
  }

  // The file of the newer version allows the older one: it exists, its minimum can be read, and
  // the older version is at least that minimum.
  ghost predicate Permits(paths: Paths, newer: string, older: string) {
    && newer in paths && Parse(paths[newer]).Ok? && Parse(older).Ok?
    && var min, v := Parse(paths[newer]).value, Parse(older).value;
       v.major > min.major || (v.major == min.major && v.minor >= min.minor)
  }

  // What the upgrade graph allows. Of two tied versions, and where the old one cannot be read,
  // the one that was recorded or asked for last counts as the newer.
  ghost predicate Reaches(paths: Paths, was: string, now: string) {
    || was == now
    || (var up := Parse(was).Ok? && Parse(now).Ok? &&
                  (Parse(now).value.major > Parse(was).value.major ||
                   (Parse(now).value.major == Parse(was).value.major && Parse(now).value.minor >= Parse(was).value.minor));
        if up then Permits(paths, now, was) else Permits(paths, was, now))
  }

  lemma ValidHopIff(paths: Paths, was: string, now: string)
    ensures ValidHop(paths, was, now) <==> Reaches(paths, was, now)
  {
  }

  // For versions as numbers that differ in major or minor, up and down alike: a hop is valid if
  // and only if the newer one has a file whose minimum is at most the older one.
  lemma HopIff(paths: Paths, a: nat, b: nat, p: string, c: nat, d: nat, q: string)
    requires a <= MaxInt && b <= MaxInt && c <= MaxInt && d <= MaxInt && '.' !in p && '.' !in q
    requires c > a || (c == a && d > b)
    ensures var older, newer := "v" + Written(a, b, p), "v" + Written(c, d, q);
            && (ValidHop(paths, older, newer) <==> ValidHop(paths, newer, older))
            && (newer !in paths ==> !ValidHop(paths, older, newer))
            && forall e: nat, f: nat, r: string :: e <= MaxInt && f <= MaxInt && '.' !in r && newer in paths && paths[newer] == "v" + Written(e, f, r) ==>
                 (ValidHop(paths, older, newer) <==> a > e || (a == e && b >= f))
  {
    var older, newer := "v" + Written(a, b, p), "v" + Written(c, d, q);
    VersionReads(a, b, p);
    VersionReads(c, d, q);
    assert older != newer;
    ValidHopIff(paths, older, newer);
    ValidHopIff(paths, newer, older);
    forall e: nat, f: nat, r: string | e <= MaxInt && f <= MaxInt && '.' !in r && newer in paths && paths[newer] == "v" + Written(e, f, r)
      ensures ValidHop(paths, older, newer) <==> a > e || (a == e && b >= f)
    {
      VersionReads(e, f, r);
    }
  }

  // A hop that changes major or minor is valid in both directions or in neither; a hop
  // within one minor may differ, and is valid both ways exactly when both files allow it.
  lemma UpgradeSymmetry(paths: Paths, a: string, b: string)
    requires Parses(a) && Parses(b) && a != b
    ensures Parse(a) != Parse(b) ==> (ValidHop(paths, a, b) <==> ValidHop(paths, b, a))
    ensures Parse(a) == Parse(b) ==>
      ((ValidHop(paths, a, b) <==> b in paths && Meets(paths[b], b)) &&
       (ValidHop(paths, b, a) <==> a in paths && Meets(paths[a], a)))
  {
    VersionOrder(a, b, a);
  }

  // A step up within one minor can be a one-way street.
  lemma PatchHopIsOneWay()
    ensures ValidHop(map["v2.1.1" := "v2.1.0"], "v2.1.0", "v2.1.1")
    ensures !ValidHop(map["v2.1.1" := "v2.1.0"], "v2.1.1", "v2.1.0")
  {
    var a, b := "v2.1.0", "v2.1.1";
    ThreePieces("2", "1", "0");
    ThreePieces("2", "1", "1");
    assert TrimV(a) == TrimV(a[1..]) == a[1..] == "2" + ['.'] + ("1" + ['.'] + "0");
    assert TrimV(b) == TrimV(b[1..]) == b[1..] == "2" + ['.'] + ("1" + ['.'] + "1");
    assert Parse(a) == Parse(b) && Parses(a);
    UpgradeSymmetry(map[b := a], a, b);
  }

  lemma ThreePieces(a: string, b: string, c: string)
    requires '.' !in a && '.' !in b && '.' !in c
    ensures Split(a + ['.'] + (b + ['.'] + c), '.') == [a, b, c]
  {
    SplitHead(a, b + ['.'] + c, '.');
    SplitHead(b, c, '.');
    SplitHead(c, "", '.');
  }

  // An upgrade that is valid from a stays valid from every version between.
  lemma UpgradeFromBetween(paths: Paths, a: string, mid: string, b: string)
    requires Parses(a) && Parses(mid) && Parses(b)
    requires Meets(a, mid) && Meets(mid, b) && a != b
    requires ValidHop(paths, a, b)
    ensures ValidHop(paths, mid, b)
  {
    VersionOrder(a, mid, b);
    if mid != b && Parses(paths[b]) {
      VersionOrder(paths[b], a, mid);
    }
  }

  datatype Entry = Entry(name: string, isDir: bool)

  // getLatestAuthVersion over a directory listing: the running maximum starts at the first
  // directory whatever its name, and names that do not parse are skipped after that.
  method GetLatestAuthVersion(files: seq<Entry>) returns (r: Result<string>)
    ensures r.Err? <==> forall i :: 0 <= i < |files| && files[i].isDir ==> files[i].name == ""
    ensures r.Ok? ==> Entry(r.value, true) in files
    ensures r.Ok? && (forall i :: 0 <= i < |files| && files[i].isDir ==> Parses(files[i].name)) ==>
              forall i :: 0 <= i < |files| && files[i].isDir ==> Meets(files[i].name, r.value)
  {
    var latest := "";
    ghost var parse := forall i :: 0 <= i < |files| && files[i].isDir ==> Parses(files[i].name);
    for k := 0 to |files|
      invariant latest == "" <==> forall i :: 0 <= i < k && files[i].isDir ==> files[i].name == ""
      invariant latest != "" ==> Entry(latest, true) in files
      invariant latest != "" && parse ==> forall i :: 0 <= i < k && files[i].isDir ==> Meets(files[i].name, latest)
    {
      if files[k].isDir {
        var v := files[k].name;
        if latest == "" {
          EmptyDoesNotParse();
          latest := v;
        } else {
          var newer := MinVersionCheck(latest, v);
          if newer == Ok(true) {
            forall i | parse && 0 <= i < k && files[i].isDir ensures Meets(files[i].name, v) {
              VersionOrder(files[i].name, latest, v);
            }
            latest := v;
          } else if parse {
            VersionOrder(latest, v, v);
          }
        }
      }
    }
    r := if latest == "" then Err else Ok(latest);
  }

  lemma EmptyDoesNotParse()
    ensures !Parses("")
  {
    assert Split("", '.') == [""];
  }
}
