// Re-rooting an image under a custom registry.
module Images {
  import opened Text

  // Where the part after the last slash begins.
  function LastPart(s: string): (k: nat)
    ensures k <= |s| && (k > 0 ==> s[k - 1] == '/')
    ensures forall i :: k <= i < |s| ==> s[i] != '/'
  {
    if s == [] then 0 else if s[|s| - 1] == '/' then |s| else LastPart(s[..|s| - 1])
  }

  // Where the first slash is, or the length.
  function FirstSlash(s: string): (k: nat)
    ensures k <= |s| && (k < |s| ==> s[k] == '/')
    ensures forall i :: 0 <= i < k ==> s[i] != '/'
  {
    if s == [] || s[0] == '/' then 0 else 1 + FirstSlash(s[1..])
  }

  predicate IsDomain(p: string) { '.' in p || p == "localhost" }

  // How much of an image is replaced by the registry: all but the last part, or a leading
  // registry domain when the path is retained.
  function Dropped(file: string, retain: bool): (k: nat)
    ensures k <= |file| && (k > 0 ==> file[k - 1] == '/')
  {
    if !retain then LastPart(file)
    else
      var k := FirstSlash(file);
      if k < |file| && IsDomain(file[..k]) then k + 1 else 0
  }

  function ResolveImage(image: string, registry: string, retain: bool): string {
    var reg, file := TrimSpace(registry), TrimSpace(image);
    if reg == "" then image else reg + "/" + file[Dropped(file, retain)..]
  }

  function Resolver(registry: string, retain: bool): string -> string { image => ResolveImage(image, registry, retain) }

  function Iterate(f: string -> string, x: string, k: nat): string { if k == 0 then x else f(Iterate(f, x, k - 1)) }

  // The same image resolved k times over.
  function Resolved(image: string, registry: string, retain: bool, k: nat): string {
    Iterate(Resolver(registry, retain), image, k)
  }

  // What follows the last slash: the image's own name and tag.
  function BaseName(s: string): string { s[LastPart(s)..] }

  // A resolved image has nothing to trim.
  lemma ResolvedIsTrimmed(reg: string, file: string, k: nat)
    requires reg != "" && Trimmed(reg) && Trimmed(file) && k <= |file|
    ensures Trimmed(reg + "/" + file[k..])
  {
    var r := reg + "/" + file[k..];
    assert r[0] == reg[0];
    assert r[|r| - 1] == if k < |file| then file[|file| - 1] else '/';
  }

  lemma LastPartIs(s: string, k: nat)
    requires k <= |s| && (k > 0 ==> s[k - 1] == '/') && forall i :: k <= i < |s| ==> s[i] != '/'
    ensures LastPart(s) == k
  {
  }

  lemma FirstSlashIs(s: string, k: nat)
    requires k < |s| && s[k] == '/' && forall i :: 0 <= i < k ==> s[i] != '/'
    ensures FirstSlash(s) == k
  {
  }

  lemma {:induction false} LastPartOf(p: string, s: string)
    ensures LastPart(p + "/" + s) == |p| + 1 + LastPart(s)
  {
    var all := p + "/" + s;
    assert all[|all| - 1] == if s == [] then '/' else s[|s| - 1];
    if s != [] && s[|s| - 1] != '/' {
      assert all[..|all| - 1] == p + "/" + s[..|s| - 1];
      LastPartOf(p, s[..|s| - 1]);
    }
  }

  lemma BaseNameOf(p: string, s: string)
    ensures BaseName(p + "/" + s) == BaseName(s)
  {
    LastPartOf(p, s);
    assert (p + "/" + s)[|p| + 1 + LastPart(s)..] == s[LastPart(s)..];
  }

  // Resolving never loses the image's own name and tag.
  lemma ResolveKeepsName(image: string, registry: string, retain: bool)
    requires TrimSpace(registry) != ""
    ensures BaseName(ResolveImage(image, registry, retain)) == BaseName(TrimSpace(image))
  {
    var file := TrimSpace(image);
    BaseNameOf(TrimSpace(registry), file[Dropped(file, retain)..]);
    DroppedKeepsName(file, Dropped(file, retain));
  }

  lemma DroppedKeepsName(file: string, k: nat)
    requires k <= |file| && (k > 0 ==> file[k - 1] == '/')
    ensures BaseName(file[k..]) == BaseName(file)
  {
    if k > 0 {
      assert file == file[..k - 1] + "/" + file[k..];
      BaseNameOf(file[..k - 1], file[k..]);
    } else {
      assert file[0..] == file;
    }
  }

  // The whole result: the registry, and the image's last part, or its path without a leading
  // domain (a part with a dot in it, or localhost) when the path is retained.
  lemma ResolvesTo(image: string, registry: string, retain: bool, head: string, path: string)
    requires TrimSpace(registry) != "" && '/' !in head
    ensures !retain && '/' !in path && TrimSpace(image) == path ==> ResolveImage(image, registry, retain) == TrimSpace(registry) + "/" + path
    ensures !retain ==> ResolveImage(image, registry, retain) == TrimSpace(registry) + "/" + BaseName(TrimSpace(image))
    ensures retain && '/' !in TrimSpace(image) ==> ResolveImage(image, registry, retain) == TrimSpace(registry) + "/" + TrimSpace(image)
    ensures retain && TrimSpace(image) == head + "/" + path ==>
              ResolveImage(image, registry, retain) ==
                TrimSpace(registry) + "/" + (if '.' in head || head == "localhost" then path else head + "/" + path)
  {
    var file := TrimSpace(image);
    if !retain && '/' !in path && file == path { LastPartIs(file, 0); }
    if retain && file == head + "/" + path {
      FirstSlashIs(file, |head|);
      assert file[..|head|] == head && file[|head| + 1..] == path;
    }
  }

  // The condition under which resolving an image a second time changes nothing.
  predicate Stable(registry: string, retain: bool) {
    var reg := TrimSpace(registry);
    reg == "" || !retain || ('/' !in reg && IsDomain(reg))
  }

  // A second resolution drops exactly the registry the first put there, or less.
  lemma DroppedAgain(reg: string, s: string)
    ensures var k := Dropped(reg + "/" + s, true);
            if '/' !in reg && IsDomain(reg) then k == |reg| + 1 else k <= |reg|
  {
    var all := reg + "/" + s;
    if '/' !in reg {
      FirstSlashIs(all, |reg|);
      assert all[..|reg|] == reg;
    } else {
      var i :| 0 <= i < |reg| && reg[i] == '/';
      assert all[i] == '/';
    }
  }

  lemma SecondTime(image: string, registry: string, retain: bool)
    requires TrimSpace(registry) != ""
    ensures var reg, r := TrimSpace(registry), ResolveImage(image, registry, retain);
            ResolveImage(r, registry, retain) == reg + "/" + r[Dropped(r, retain)..]
  {
    var file := TrimSpace(image);
    ResolvedIsTrimmed(TrimSpace(registry), file, Dropped(file, retain));
  }

  // For every image: resolving twice is resolving once if and only if there is no registry,
  // the path is dropped, or the registry is a bare domain.
  lemma ResolveTwiceIff(image: string, registry: string, retain: bool)
    ensures var r := ResolveImage(image, registry, retain);
            ResolveImage(r, registry, retain) == r <==> Stable(registry, retain)
  {
    var reg, r := TrimSpace(registry), ResolveImage(image, registry, retain);
    if reg != "" {
      var file := TrimSpace(image);
      var rest := file[Dropped(file, retain)..];
      SecondTime(image, registry, retain);
      assert r[|reg| + 1..] == rest;
      if retain {
        DroppedAgain(reg, rest);
      } else {
        LastPartOf(reg, rest);
        assert LastPart(rest) == 0;
      }
    }
  }

  lemma ResolvedNext(image: string, registry: string, retain: bool, k: nat)
    ensures Resolved(image, registry, retain, k + 1) == ResolveImage(Resolved(image, registry, retain, k), registry, retain)
  {
  }

  lemma {:induction false} IterateSettles(f: string -> string, x: string, k: nat)
    requires f(f(x)) == f(x) && k >= 1
    ensures Iterate(f, x, k) == f(x)
  {
    assert Iterate(f, x, 0) == x;
    if k > 1 { IterateSettles(f, x, k - 1); }
  }

  // Under a stable registry any number of resolutions, from one up, is one.
  lemma StableIsOnce(image: string, registry: string, retain: bool, k: nat)
    requires Stable(registry, retain) && k >= 1
    ensures Resolved(image, registry, retain, k) == ResolveImage(image, registry, retain)
  {
    ResolveTwiceIff(image, registry, retain);
    IterateSettles(Resolver(registry, retain), image, k);
  }

  lemma SecondIsLonger(image: string, registry: string, retain: bool)
    requires !Stable(registry, retain)
    ensures var r := ResolveImage(image, registry, retain); |ResolveImage(r, registry, retain)| > |r|
  {
    SecondTime(image, registry, retain);
    DroppedAgain(TrimSpace(registry), TrimSpace(image)[Dropped(TrimSpace(image), retain)..]);
  }

  lemma {:induction false} IterateGrows(f: string -> string, x: string, k: nat)
    requires k >= 2 && forall y :: |f(f(y))| > |f(y)|
    ensures |Iterate(f, x, k)| > |f(x)|
  {
    assert Iterate(f, x, k) == f(f(Iterate(f, x, k - 2)));
    assert Iterate(f, x, k - 1) == f(Iterate(f, x, k - 2));
    if k > 2 { IterateGrows(f, x, k - 1); }
  }

  // Otherwise every further resolution makes the image longer.
  lemma UnstableGrows(image: string, registry: string, retain: bool, k: nat)
    requires !Stable(registry, retain) && k >= 2
    ensures |Resolved(image, registry, retain, k)| > |ResolveImage(image, registry, retain)|
  {
    var f := Resolver(registry, retain);
    forall y ensures |f(f(y))| > |f(y)| { SecondIsLonger(y, registry, retain); }
    IterateGrows(f, image, k);
  }
}
