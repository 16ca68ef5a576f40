// The string operations the operator relies on.
module Text {

  // strings.Split with a one-character separator.
  function Split(s: string, c: char): (r: seq<string>)
    ensures |r| >= 1
  {
    if s == [] then [[]]
    else if s[0] == c then [[]] + Split(s[1..], c)
    else
      var r := Split(s[1..], c);
      [[s[0]] + r[0]] + r[1..]
  }

  // strings.Join with a one-character separator.
  function Join(ps: seq<string>, c: char): string {
    if ps == [] then ""
    else if |ps| == 1 then ps[0]
    else ps[0] + [c] + Join(ps[1..], c)
  }

  lemma {:induction false} SplitHead(p: string, s: string, c: char)
    requires c !in p
    ensures Split(p, c) == [p]
    ensures Split(p + [c] + s, c) == [p] + Split(s, c)
  {
    if p == [] {
      assert p + [c] + s == [c] + s;
    } else {
      SplitHead(p[1..], s, c);
      assert (p + [c] + s)[1..] == p[1..] + [c] + s;
      assert [p[0]] + p[1..] == p;
    }
  }

  // Splitting what was joined gives the pieces back, when no piece holds the separator.
  lemma {:induction false} SplitJoin(ps: seq<string>, c: char)
    requires ps != [] && forall i :: 0 <= i < |ps| ==> c !in ps[i]
    ensures Split(Join(ps, c), c) == ps
  {
    if |ps| == 1 {
      SplitHead(ps[0], "", c);
    } else {
      SplitJoin(ps[1..], c);
      SplitHead(ps[0], Join(ps[1..], c), c);
    }
  }

  // unicode.IsSpace.
  predicate IsSpace(c: char) {
    || '\t' <= c <= '\r' || c == ' ' || c == '\U{85}' || c == '\U{A0}' || c == '\U{1680}'
    || '\U{2000}' <= c <= '\U{200A}' || c == '\U{2028}' || c == '\U{2029}'
    || c == '\U{202F}' || c == '\U{205F}' || c == '\U{3000}'
  }

  predicate Spaces(s: string) { forall i :: 0 <= i < |s| ==> IsSpace(s[i]) }

  function Leading(s: string): (k: nat)
    ensures k <= |s| && Spaces(s[..k]) && (k < |s| ==> !IsSpace(s[k]))
  {
    if s == [] || !IsSpace(s[0]) then 0 else 1 + Leading(s[1..])
  }

  function Inked(s: string): (k: nat)
    ensures k <= |s| && Spaces(s[k..]) && (k > 0 ==> !IsSpace(s[k - 1]))
  {
    if s == [] || !IsSpace(s[|s| - 1]) then |s| else Inked(s[..|s| - 1])
  }

  predicate Trimmed(s: string) {
    s != [] ==> !IsSpace(s[0]) && !IsSpace(s[|s| - 1])
  }

  // strings.TrimSpace.
  function TrimSpace(s: string): (r: string)
    ensures Trimmed(r)
    ensures Trimmed(s) ==> r == s
  {
    var t := s[Leading(s)..];
    t[..Inked(t)]
  }

  // s is t with white space before and behind it.
  ghost predicate Padded(s: string, t: string) { exists a, b :: Around(a, t, b, s) }

  predicate Around(a: string, t: string, b: string, s: string) { Spaces(a) && Spaces(b) && s == a + t + b }

  // What is cut off at either end is white space.
  lemma TrimCutsSpaces(s: string)
    ensures Padded(s, TrimSpace(s))
  {
    var t := s[Leading(s)..];
    assert Around(s[..Leading(s)], t[..Inked(t)], t[Inked(t)..], s);
  }

  // And nothing else is: a trimmed string comes back from between any white space.
  lemma TrimBetween(a: string, t: string, b: string)
    requires Spaces(a) && Spaces(b) && Trimmed(t)
    ensures TrimSpace(a + t + b) == t
  {
    var s := a + t + b;
    if t == [] {
      assert Spaces(s);
      assert s[Leading(s)..] == [];
    } else {
      assert s[|a|] == t[0];
      LeadingIs(s, |a|);
      assert s[|a|..] == t + b;
      assert (t + b)[|t| - 1] == t[|t| - 1];
      InkedIs(t + b, |t|);
      assert (t + b)[..|t|] == t;
    }
  }

  lemma TrimPadded(s: string, t: string)
    requires Padded(s, t) && Trimmed(t)
    ensures TrimSpace(s) == t
  {
    var a, b :| Around(a, t, b, s);
    TrimBetween(a, t, b);
  }

  lemma LeadingIs(s: string, k: nat)
    requires k < |s| && Spaces(s[..k]) && !IsSpace(s[k])
    ensures Leading(s) == k
  {
  }

  lemma InkedIs(s: string, k: nat)
    requires 0 < k <= |s| && Spaces(s[k..]) && !IsSpace(s[k - 1])
    ensures Inked(s) == k
  {
  }

  // strings.Contains.
  predicate Contains(s: string, sub: string) {
    exists i :: 0 <= i <= |s| && sub <= s[i..]
  }

  // The substring may stand anywhere.
  lemma ContainsIff(s: string, sub: string)
    ensures Contains(s, sub) <==> exists a, b :: s == a + sub + b
  {
    if i :| 0 <= i <= |s| && sub <= s[i..] {
      assert s == s[..i] + sub + s[i + |sub|..];
    }
    if a, b :| s == a + sub + b {
      assert s[|a|..] == sub + b;
    }
  }

  // Decimal printing, as fmt's %d and strconv.Itoa.
  function Digit(d: nat): char
    requires d < 10
  {
    '0' + d as char
  }

  function Decimal(n: nat): (r: string)
    ensures r != []
    ensures forall i :: 0 <= i < |r| ==> '0' <= r[i] <= '9'
  {
    if n < 10 then [Digit(n)] else Decimal(n / 10) + [Digit(n % 10)]
  }

  function Itoa(n: int): string {
    if n < 0 then "-" + Decimal(-n) else Decimal(n)
  }

  // Equal printings are equal numbers: comparing the strings compares the counts.
  lemma {:induction false} DecimalInjective(m: nat, n: nat)
    requires Decimal(m) == Decimal(n)
    ensures m == n
  {
    var p, q := Decimal(m), Decimal(n);
    assert p[|p| - 1] == q[|q| - 1];
    if m >= 10 && n >= 10 {
      assert p[..|p| - 1] == Decimal(m / 10) && q[..|q| - 1] == Decimal(n / 10);
      DecimalInjective(m / 10, n / 10);
    }
  }

  lemma ItoaInjective(m: int, n: int)
    ensures Itoa(m) == Itoa(n) <==> m == n
  {
    if Itoa(m) == Itoa(n) {
      assert Itoa(m)[0] == Itoa(n)[0];
      if m < 0 {
        assert Itoa(m)[1..] == Decimal(-m) && Itoa(n)[1..] == Decimal(-n);
        DecimalInjective(-m, -n);
      } else {
        DecimalInjective(m, n);
      }
    }
  }
}
