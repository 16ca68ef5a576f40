// The regular expression for IPv4 addresses and what it accepts.
module Ipv4 {
  import opened Text

  datatype Regex = Range(lo: char, hi: char) | Then(first: Regex, second: Regex) | Or(left: Regex, right: Regex)

  // s as a whole matches r.
  predicate Matches(r: Regex, s: string) {
    match r
    case Range(lo, hi) => |s| == 1 && lo <= s[0] <= hi
    case Then(a, b) => exists k :: 0 <= k <= |s| && Matches(a, s[..k]) && Matches(b, s[k..])
    case Or(a, b) => Matches(a, s) || Matches(b, s)
  }

  const AnyDigit := Range('0', '9')

  // 1[0-9]{2}|2[0-4][0-9]|25[0-5]
  const Hundreds := Or(Then(Range('1', '1'), Then(AnyDigit, AnyDigit)),
                    Or(Then(Range('2', '2'), Then(Range('0', '4'), AnyDigit)),
                       Then(Range('2', '2'), Then(Range('5', '5'), Range('0', '5')))))

  // [0-9]|[1-9][0-9]| and the above
  const Octet := Or(AnyDigit, Or(Then(Range('1', '9'), AnyDigit), Hundreds))

  const Dotted := Then(Octet, Range('.', '.'))

  const IpRegex := Then(Dotted, Then(Dotted, Then(Dotted, Octet)))

  predicate IsIpv4Regex(s: string) { Matches(IpRegex, s) }

  // ---------- one number ----------

  // s is the decimal form of a number from lo up to hi.
  ghost predicate Prints(s: string, lo: nat, hi: nat) { exists n: nat :: lo <= n < hi && s == Decimal(n) }

  lemma RangeThen(lo: char, hi: char, r: Regex, s: string)
    ensures Matches(Then(Range(lo, hi), r), s) <==> |s| >= 1 && lo <= s[0] <= hi && Matches(r, s[1..])
  {
    if |s| >= 1 && lo <= s[0] <= hi && Matches(r, s[1..]) {
      assert Matches(Range(lo, hi), s[..1]);
    }
  }

  lemma OrIff(a: Regex, b: Regex, s: string)
    ensures Matches(Or(a, b), s) <==> Matches(a, s) || Matches(b, s)
  {
  }

  lemma DecimalSnoc(m: nat, d: nat)
    requires m >= 1 && d < 10
    ensures Decimal(10 * m + d) == Decimal(m) + [Digit(d)]
  {
    assert (10 * m + d) / 10 == m && (10 * m + d) % 10 == d;
  }

  function Value(c: char): nat
    requires '0' <= c <= '9'
  {
    c as int - '0' as int
  }

  lemma OneDigit(s: string)
    ensures Matches(AnyDigit, s) <==> Prints(s, 0, 10)
  {
    if Matches(AnyDigit, s) {
      assert s == Decimal(Value(s[0]));
    }
  }

  lemma TwoDigits(s: string)
    ensures Matches(Then(Range('1', '9'), AnyDigit), s) <==> Prints(s, 10, 100)
  {
    RangeThen('1', '9', AnyDigit, s);
    if |s| == 2 && '1' <= s[0] <= '9' && '0' <= s[1] <= '9' {
      DecimalSnoc(Value(s[0]), Value(s[1]));
      assert s == Decimal(10 * Value(s[0]) + Value(s[1]));
    }
    if n: nat :| 10 <= n < 100 && s == Decimal(n) {
      DecimalSnoc(n / 10, n % 10);
    }
  }

  lemma HundredsChars(s: string)
    ensures Matches(Hundreds, s) <==>
              |s| == 3 && (|| (s[0] == '1' && '0' <= s[1] <= '9' && '0' <= s[2] <= '9')
                           || (s[0] == '2' && '0' <= s[1] <= '4' && '0' <= s[2] <= '9')
                           || (s[0] == '2' && s[1] == '5' && '0' <= s[2] <= '5'))
  {
    RangeThen('1', '1', Then(AnyDigit, AnyDigit), s);
    RangeThen('2', '2', Then(Range('0', '4'), AnyDigit), s);
    RangeThen('2', '2', Then(Range('5', '5'), Range('0', '5')), s);
    if |s| >= 1 {
      RangeThen('0', '9', AnyDigit, s[1..]);
      RangeThen('0', '4', AnyDigit, s[1..]);
      RangeThen('5', '5', Range('0', '5'), s[1..]);
    }
  }

  lemma ThreeChars(n: nat)
    requires 100 <= n < 1000
    ensures Decimal(n) == [Digit(n / 100), Digit(n / 10 % 10), Digit(n % 10)]
  {
    var m := n / 10;
    DecimalSnoc(m, n % 10);
    DecimalSnoc(m / 10, m % 10);
    assert Decimal(m / 10) == [Digit(m / 10)];
    assert m / 10 == n / 100;
  }

  lemma CharsPrint(s: string)
    requires |s| == 3 && '1' <= s[0] <= '9' && '0' <= s[1] <= '9' && '0' <= s[2] <= '9'
    ensures s == Decimal(100 * Value(s[0]) + 10 * Value(s[1]) + Value(s[2]))
  {
    ThreeChars(100 * Value(s[0]) + 10 * Value(s[1]) + Value(s[2]));
    Places(Value(s[0]), Value(s[1]), Value(s[2]));
  }

  lemma Places(a: nat, b: nat, c: nat)
    requires a < 10 && b < 10 && c < 10
    ensures var n := 100 * a + 10 * b + c; n / 100 == a && n / 10 % 10 == b && n % 10 == c
  {
    var n := 100 * a + 10 * b + c;
    assert n / 10 == 10 * a + b;
  }

  lemma ThreeDigits(s: string)
    ensures Matches(Hundreds, s) <==> Prints(s, 100, 256)
  {
    HundredsChars(s);
    if Matches(Hundreds, s) {
      CharsPrint(s);
    }
    if n: nat :| 100 <= n < 256 && s == Decimal(n) {
      ThreeChars(n);
    }
  }

  lemma OctetIff(s: string)
    ensures Matches(Octet, s) <==> Prints(s, 0, 256)
  {
    OrIff(AnyDigit, Or(Then(Range('1', '9'), AnyDigit), Hundreds), s);
    OrIff(Then(Range('1', '9'), AnyDigit), Hundreds, s);
    OneDigit(s);
    TwoDigits(s);
    ThreeDigits(s);
    PrintsParts(s);
  }

  lemma PrintsParts(s: string)
    ensures Prints(s, 0, 256) <==> Prints(s, 0, 10) || Prints(s, 10, 100) || Prints(s, 100, 256)
  {
  }

  // ---------- four of them ----------

  function Printed(a: nat, b: nat, c: nat, d: nat): string {
    Decimal(a) + "." + (Decimal(b) + "." + (Decimal(c) + "." + Decimal(d)))
  }

  ghost predicate Canonical(s: string) {
    exists a: nat, b: nat, c: nat, d: nat :: a < 256 && b < 256 && c < 256 && d < 256 && s == Printed(a, b, c, d)
  }

  lemma ThenJoin(a: Regex, b: Regex, s: string, t: string)
    requires Matches(a, s) && Matches(b, t)
    ensures Matches(Then(a, b), s + t)
  {
    assert (s + t)[..|s|] == s && (s + t)[|s|..] == t;
  }

  lemma ThenSplit(a: Regex, b: Regex, s: string) returns (t: string, u: string)
    requires Matches(Then(a, b), s)
    ensures s == t + u && Matches(a, t) && Matches(b, u)
  {
    var k :| 0 <= k <= |s| && Matches(a, s[..k]) && Matches(b, s[k..]);
    t, u := s[..k], s[k..];
  }

  lemma DottedJoin(n: nat, r: Regex, t: string)
    requires n < 256 && Matches(r, t)
    ensures Matches(Then(Dotted, r), Decimal(n) + "." + t)
  {
    OctetIff(Decimal(n));
    ThenJoin(Octet, Range('.', '.'), Decimal(n), ".");
    ThenJoin(Dotted, r, Decimal(n) + ".", t);
  }

  lemma DottedSplit(r: Regex, s: string) returns (n: nat, t: string)
    requires Matches(Then(Dotted, r), s)
    ensures n < 256 && s == Decimal(n) + "." + t && Matches(r, t)
  {
    var h;
    h, t := ThenSplit(Dotted, r, s);
    var o, p := ThenSplit(Octet, Range('.', '.'), h);
    OctetIff(o);
    n :| n < 256 && o == Decimal(n);
    assert p == ".";
  }

  // The expression accepts exactly the canonical printings of four numbers from 0 to 255.
  lemma Ipv4Iff(s: string)
    ensures IsIpv4Regex(s) <==> Canonical(s)
  {
    if IsIpv4Regex(s) {
      Ipv4Split(s);
    }
    if a: nat, b: nat, c: nat, d: nat :| a < 256 && b < 256 && c < 256 && d < 256 && s == Printed(a, b, c, d) {
      Ipv4Join(a, b, c, d);
    }
  }

  lemma Ipv4Split(s: string)
    requires IsIpv4Regex(s)
    ensures Canonical(s)
  {
    var a, t := DottedSplit(Then(Dotted, Then(Dotted, Octet)), s);
    var b, u := DottedSplit(Then(Dotted, Octet), t);
    var c, v := DottedSplit(Octet, u);
    OctetIff(v);
    var d: nat :| d < 256 && v == Decimal(d);
    assert s == Printed(a, b, c, d);
  }

  lemma Ipv4Join(a: nat, b: nat, c: nat, d: nat)
    requires a < 256 && b < 256 && c < 256 && d < 256
    ensures IsIpv4Regex(Printed(a, b, c, d))
  {
    OctetIff(Decimal(d));
    DottedJoin(c, Octet, Decimal(d));
    DottedJoin(b, Then(Dotted, Octet), Decimal(c) + "." + Decimal(d));
    DottedJoin(a, Then(Dotted, Then(Dotted, Octet)), Decimal(b) + "." + (Decimal(c) + "." + Decimal(d)));
  }

  // An address is made of digits and dots, and is neither empty nor spaced.
  lemma Ipv4Chars(s: string)
    requires IsIpv4Regex(s)
    ensures s != "" && forall i :: 0 <= i < |s| ==> s[i] == '.' || '0' <= s[i] <= '9'
    ensures Trimmed(s) && ',' !in s && '&' !in s
  {
    Ipv4Split(s);
  }
}
