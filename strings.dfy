/**
 * The few string operations the catalog relies on: decimal rendering of
 * integers (template literals), `padStart`, ASCII `toLowerCase`,
 * `includes`, `startsWith`, and JavaScript's `>` on strings.
 */
module Strings {

  /** The decimal digit character for `d`. */
  function DigitChar(d: nat): (c: char)
    requires d < 10
    ensures '0' <= c <= '9'
  {
    (48 + d) as char
  }

  /** The value of a digit character (0 for anything else). */
  function DigitValue(c: char): (d: nat)
    ensures d < 10
  {
    if '0' <= c <= '9' then c as int - 48 else 0
  }

  predicate IsDigits(s: string) {
    forall k :: 0 <= k < |s| ==> '0' <= s[k] <= '9'
  }

  /** `${n}` for a non-negative integer: its decimal digits, no leading zero. */
  function NatToString(n: nat): (s: string)
    ensures 1 <= |s| && IsDigits(s)
    ensures |s| == 1 <==> n < 10
  {
    if n < 10 then [DigitChar(n)] else NatToString(n / 10) + [DigitChar(n % 10)]
  }

  /** Numbers below 10^k render in at most k digits. */
  lemma {:induction false} NatToStringShort(n: nat, k: nat)
    requires k >= 1 && n < Pow10(k)
    ensures |NatToString(n)| <= k
  {
    if n >= 10 {
      assert k > 1;
      NatToStringShort(n / 10, k - 1);
    }
  }

  function Pow10(k: nat): (p: nat)
    ensures p >= 1
  {
    if k == 0 then 1 else 10 * Pow10(k - 1)
  }

  /** Reads a string of decimal digits back as a number. */
  function ParseNat(s: string): nat {
    if s == [] then 0 else ParseNat(s[..|s| - 1]) * 10 + DigitValue(s[|s| - 1])
  }

  lemma {:induction false} ParseNatToString(n: nat)
    ensures ParseNat(NatToString(n)) == n
  {
    var s := NatToString(n);
    if n >= 10 {
      assert s[..|s| - 1] == NatToString(n / 10);
      ParseNatToString(n / 10);
    }
  }

  /** `c` repeated `n` times. */
  function Repeat(c: char, n: nat): (s: string)
    ensures |s| == n && forall k :: 0 <= k < n ==> s[k] == c
  {
    if n == 0 then [] else [c] + Repeat(c, n - 1)
  }

  /** `s.padStart(width, c)` with a one-character pad string. */
  function PadStart(s: string, width: nat, c: char): (r: string)
    ensures |r| == if |s| >= width then |s| else width
    ensures r[|r| - |s|..] == s
    ensures forall k :: 0 <= k < |r| - |s| ==> r[k] == c
  {
    if |s| >= width then s else Repeat(c, width - |s|) + s
  }

  /** Leading zeros do not change the value of a digit string. */
  lemma {:induction false} ParseNatLeadingZeros(z: nat, s: string)
    ensures ParseNat(Repeat('0', z) + s) == ParseNat(s)
    decreases |s|, z
  {
    if s == [] {
      if z > 0 {
        var zs := Repeat('0', z);
        assert zs + s == zs;
        assert zs[..|zs| - 1] == Repeat('0', z - 1) + [];
        ParseNatLeadingZeros(z - 1, []);
      }
    } else {
      var zs := Repeat('0', z);
      assert (zs + s)[..|zs + s| - 1] == zs + s[..|s| - 1];
      ParseNatLeadingZeros(z, s[..|s| - 1]);
    }
  }

  /** Zero-padding a rendered number keeps it readable as that number. */
  lemma PaddedNatRoundTrip(n: nat, width: nat)
    ensures ParseNat(PadStart(NatToString(n), width, '0')) == n
  {
    var s := NatToString(n);
    ParseNatToString(n);
    if |s| < width {
      ParseNatLeadingZeros(width - |s|, s);
    }
  }

  /** ASCII `toLowerCase` of one character. */
  function LowerChar(c: char): (l: char)
    ensures 'A' <= c <= 'Z' ==> 'a' <= l <= 'z'
    ensures !('A' <= c <= 'Z') ==> l == c
  {
    if 'A' <= c <= 'Z' then (c as int + 32) as char else c
  }

  /** ASCII `toLowerCase`: no upper-case letter survives, length is kept. */
  function Lower(s: string): (r: string)
    ensures |r| == |s|
    ensures forall k :: 0 <= k < |s| ==> r[k] == LowerChar(s[k])
  {
    seq(|s|, k requires 0 <= k < |s| => LowerChar(s[k]))
  }

  /** `s.startsWith(prefix)`. */
  predicate StartsWith(s: string, prefix: string) {
    |prefix| <= |s| && s[..|prefix|] == prefix
  }

  /** `s.includes(sub)`: `sub` starts at some offset of `s`. */
  predicate Contains(s: string, sub: string) {
    StartsWith(s, sub) || (s != [] && Contains(s[1..], sub))
  }

  /** JavaScript's `a > b` on strings: lexicographic by character code. */
  predicate Greater(a: string, b: string) {
    if a == [] then false
    else if b == [] then true
    else if a[0] != b[0] then a[0] > b[0]
    else Greater(a[1..], b[1..])
  }

  /** A number of tenths below 10.0 rendered with one decimal, as `toFixed(1)` writes it: `d.d`. */
  function TenthsToString(t: nat): (s: string)
    requires t < 100
    ensures |s| == 3 && s[1] == '.' && '0' <= s[0] <= '9' && '0' <= s[2] <= '9'
  {
    [DigitChar(t / 10), '.', DigitChar(t % 10)]
  }

  /** On `d.d` renderings, `>` on strings agrees with `>` on the numbers of tenths. */
  lemma TenthsStringOrder(a: nat, b: nat)
    requires a < 100 && b < 100
    ensures Greater(TenthsToString(a), TenthsToString(b)) <==> a > b
  {
    var sa, sb := TenthsToString(a), TenthsToString(b);
    if a / 10 != b / 10 {
      assert sa[0] != sb[0];
      assert Greater(sa, sb) <==> sa[0] > sb[0];
    } else {
      assert sa[0] == sb[0];
      assert Greater(sa, sb) == Greater(sa[1..], sb[1..]);
      assert sa[1..][1..] == sa[2..] && sb[1..][1..] == sb[2..];
      assert Greater(sa[1..], sb[1..]) == Greater(sa[2..], sb[2..]);
      if a % 10 != b % 10 {
        assert Greater(sa[2..], sb[2..]) <==> sa[2] > sb[2];
      } else {
        assert sa[2..] == sb[2..];
        assert Greater(sa[2..], sb[2..]) == Greater(sa[3..], sb[3..]);
      }
    }
  }

  /** `>` on strings never holds both ways. */
  lemma {:induction false} GreaterAsymmetric(a: string, b: string)
    ensures !(Greater(a, b) && Greater(b, a))
  {
    if a != [] && b != [] && a[0] == b[0] {
      GreaterAsymmetric(a[1..], b[1..]);
    }
  }

  /** Not being greater is transitive: `!(a > b)` and `!(b > c)` give `!(a > c)`. */
  lemma {:induction false} NotGreaterTransitive(a: string, b: string, c: string)
    requires !Greater(a, b) && !Greater(b, c)
    ensures !Greater(a, c)
  {
    if a != [] && b != [] && c != [] && a[0] == b[0] && b[0] == c[0] {
      NotGreaterTransitive(a[1..], b[1..], c[1..]);
    }
  }
}
