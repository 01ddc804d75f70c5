/**
 String building blocks used by the client: accumulation of HTML fragments,
 `Array.prototype.join`, decimal rendering of counters and indices, and the
 substring relation used to state what a rendering contains.
 */
module Strings {

  /** The fragments one after another, in order (`html += part` repeated). */
  function Concat(parts: seq<string>): string
  {
    if parts == [] then "" else parts[0] + Concat(parts[1..])
  }

  /** Appending one more fragment at the end of the accumulator. */
  lemma {:induction false} ConcatSnoc(parts: seq<string>, x: string)
    ensures Concat(parts + [x]) == Concat(parts) + x
  {
    if parts == [] {
      assert parts + [x] == [x];
      assert [x][1..] == [];
    } else {
      assert (parts + [x])[1..] == parts[1..] + [x];
      ConcatSnoc(parts[1..], x);
    }
  }

  /** Every fragment appears exactly at its place: what precedes it, then it, then what follows. */
  lemma {:induction false} ConcatSplit(parts: seq<string>, k: nat)
    requires k < |parts|
    ensures Concat(parts) == Concat(parts[..k]) + parts[k] + Concat(parts[k + 1..])
  {
    if k == 0 {
      assert parts[..0] == [];
    } else {
      var tail := parts[1..];
      ConcatSplit(tail, k - 1);
      assert tail[..k - 1] == parts[1..k];
      assert tail[k..] == parts[k + 1..];
      assert parts[..k][1..] == parts[1..k];
      assert Concat(parts[..k]) == parts[0] + Concat(parts[1..k]);
    }
  }

  /** `xs.join(sep)` of JavaScript: the elements separated by `sep`, "" when there are none. */
  function Join(xs: seq<string>, sep: string): string
  {
    if |xs| == 0 then ""
    else if |xs| == 1 then xs[0]
    else xs[0] + sep + Join(xs[1..], sep)
  }

  /** `join('')` is plain concatenation. */
  lemma {:induction false} JoinEmptySeparator(xs: seq<string>)
    ensures Join(xs, "") == Concat(xs)
  {
    if |xs| == 1 {
      assert xs[1..] == [];
    } else if |xs| > 1 {
      JoinEmptySeparator(xs[1..]);
    }
  }

  /** The `n` characters of `s` starting at position `i`. */
  function Slice(s: string, i: nat, n: nat): string
    requires i + n <= |s|
  {
    s[i..i + n]
  }

  /** `t` occurs somewhere inside `s`. */
  predicate Contains(s: string, t: string)
  {
    exists i: nat :: i + |t| <= |s| && Slice(s, i, |t|) == t
  }

  lemma ContainsInfix(a: string, t: string, b: string)
    ensures Contains(a + t + b, t)
  {
    var s := a + t + b;
    assert Slice(s, |a|, |t|) == t;
  }

  /** What occurs inside a piece also occurs inside anything built around that piece. */
  lemma ContainsWithin(a: string, t: string, b: string, x: string)
    requires Contains(t, x)
    ensures Contains(a + t + b, x)
  {
    var i: nat :| i + |x| <= |t| && Slice(t, i, |x|) == x;
    var s := a + t + b;
    assert Slice(s, |a| + i, |x|) == Slice(t, i, |x|);
  }

  /** Appending text keeps what already occurs. */
  lemma ContainsExtended(s: string, x: string, b: string)
    requires Contains(s, x)
    ensures Contains(s + b, x)
  {
    var i: nat :| i + |x| <= |s| && Slice(s, i, |x|) == x;
    assert Slice(s + b, i, |x|) == Slice(s, i, |x|);
  }

  /** What occurs inside an occurring piece occurs in the whole. */
  lemma ContainsTransitive(s: string, t: string, x: string)
    requires Contains(s, t) && Contains(t, x)
    ensures Contains(s, x)
  {
    var i: nat :| i + |t| <= |s| && Slice(s, i, |t|) == t;
    var j: nat :| j + |x| <= |t| && Slice(t, j, |x|) == x;
    assert s[i..i + |t|] == t;
    assert forall m :: 0 <= m < |x| ==> s[i + j + m] == t[j + m] == x[m];
    assert Slice(s, i + j, |x|) == x;
  }

  /** Every fragment occurs in the concatenation of the fragments. */
  lemma ConcatContainsPart(parts: seq<string>, k: nat)
    requires k < |parts|
    ensures Contains(Concat(parts), parts[k])
  {
    ConcatSplit(parts, k);
    ContainsInfix(Concat(parts[..k]), parts[k], Concat(parts[k + 1..]));
  }

  predicate IsDigits(s: string)
  {
    forall i :: 0 <= i < |s| ==> '0' <= s[i] <= '9'
  }

  function DigitChar(d: nat): (c: char)
    requires d < 10
    ensures '0' <= c <= '9'
  {
    ('0' as int + d) as char
  }

  function DigitValue(c: char): (d: nat)
    requires '0' <= c <= '9'
    ensures d < 10
  {
    c as int - '0' as int
  }

  /** JavaScript's conversion of a non-negative integer below 10^21 to text: base ten, no leading zero. */
  function NatToDecimal(n: nat): (s: string)
    ensures 1 <= |s| && IsDigits(s)
    ensures s[0] == '0' <==> n == 0
    decreases n
  {
    if n < 10 then [DigitChar(n)] else NatToDecimal(n / 10) + [DigitChar(n % 10)]
  }

  /** The number a string of decimal digits denotes. */
  function DecimalValue(s: string): nat
    requires IsDigits(s)
    decreases |s|
  {
    if s == [] then 0 else 10 * DecimalValue(s[..|s| - 1]) + DigitValue(s[|s| - 1])
  }

  /** Reading back the rendered counter gives the counter: the rendering loses nothing. */
  lemma {:induction false} DecimalRoundTrip(n: nat)
    ensures DecimalValue(NatToDecimal(n)) == n
  {
    var s := NatToDecimal(n);
    if n >= 10 {
      DecimalRoundTrip(n / 10);
      assert s[..|s| - 1] == NatToDecimal(n / 10);
    }
  }

  /** Distinct counters are displayed differently. */
  lemma NatToDecimalInjective(m: nat, n: nat)
    requires NatToDecimal(m) == NatToDecimal(n)
    ensures m == n
  {
    DecimalRoundTrip(m);
    DecimalRoundTrip(n);
  }
}
