/** String helpers shared by the period key and the tracker keys. */
module Text {

  /** No element occurs twice. */
  predicate Distinct(xs: seq<string>) {
    forall i, j :: 0 <= i < j < |xs| ==> xs[i] != xs[j]
  }

  /** The position of the first `c` in `s`, or `|s|` when there is none. */
  function IndexOfChar(s: string, c: char): (r: nat)
    ensures r <= |s|
    ensures r < |s| ==> s[r] == c
    ensures forall j :: 0 <= j < r ==> s[j] != c
  {
    if s == [] then 0
    else if s[0] == c then 0
    else 1 + IndexOfChar(s[1..], c)
  }

  /** In `x + [c] + s` with no `c` in `x`, the first `c` is the one after `x`. */
  lemma {:induction false} FirstSeparator(x: string, c: char, s: string)
    requires c !in x
    ensures IndexOfChar(x + [c] + s, c) == |x|
  {
    var w := x + [c] + s;
    assert w[|x|] == c;
    forall j | 0 <= j < |x| ensures w[j] != c {
      assert w[j] == x[j];
    }
  }

  /** Cutting `x + [c] + s` at its first `c` gives back `x` and `s`. */
  lemma {:induction false} CutAtFirst(w: string, x: string, c: char, s: string)
    requires c !in x && w == x + [c] + s
    ensures IndexOfChar(w, c) == |x| && w[..|x|] == x && w[|x| + 1..] == s
  {
    FirstSeparator(x, c, s);
  }

  /** A string is its part before position `i`, the character there, and its part after. */
  lemma Rejoin(s: string, i: nat)
    requires i < |s|
    ensures s == s[..i] + [s[i]] + s[i + 1..]
  {
  }

  /** Substituting one split into another. */
  lemma JoinTwice(t: string, a: string, rest: string, b: string, c: string, x: char, y: char)
    requires t == a + [x] + rest && rest == b + [y] + c
    ensures t == a + [x] + b + [y] + c
  {
  }

  /** Joining at a separator that neither head contains can be undone. */
  lemma {:induction false} SplitAtSeparator(x: string, s: string, y: string, t: string, c: char)
    requires c !in x && c !in y
    requires x + [c] + s == y + [c] + t
    ensures x == y && s == t
  {
    var w := x + [c] + s;
    FirstSeparator(x, c, s);
    FirstSeparator(y, c, t);
    assert x == w[..|x|] && y == w[..|y|];
    assert s == w[|x| + 1..] && t == w[|y| + 1..];
  }

  predicate IsDigit(c: char) {
    '0' <= c <= '9'
  }

  predicate AllDigits(s: string) {
    forall i :: 0 <= i < |s| ==> IsDigit(s[i])
  }

  function DigitChar(d: nat): (c: char)
    requires d < 10
    ensures IsDigit(c) && c as int - '0' as int == d
  {
    ('0' as int + d) as char
  }

  /** `str(n)` for a non-negative integer: decimal digits, no leading zero. */
  function Decimal(n: nat): (s: string)
    ensures |s| >= 1 && AllDigits(s)
    ensures s[0] == '0' ==> s == "0"
    decreases n
  {
    if n < 10 then [DigitChar(n)] else Decimal(n / 10) + [DigitChar(n % 10)]
  }

  /** The value of a string of decimal digits. */
  function ParseDecimal(s: string): nat
    requires AllDigits(s)
  {
    if s == [] then 0 else 10 * ParseDecimal(s[..|s| - 1]) + (s[|s| - 1] as int - '0' as int)
  }

  /** Reading back what `Decimal` wrote gives the number. */
  lemma {:induction false} DecimalRoundTrip(n: nat)
    ensures ParseDecimal(Decimal(n)) == n
    decreases n
  {
    if n >= 10 {
      DecimalRoundTrip(n / 10);
      var s := Decimal(n);
      assert s[..|s| - 1] == Decimal(n / 10);
    }
  }

  /** Different numbers print differently. */
  lemma {:induction false} DecimalInjective(m: nat, n: nat)
    requires Decimal(m) == Decimal(n)
    ensures m == n
  {
    DecimalRoundTrip(m);
    DecimalRoundTrip(n);
  }
}
