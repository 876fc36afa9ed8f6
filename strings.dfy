/** The two string operations the components display with: `Array.prototype.join`
    and the decimal rendering of a non-negative count, as React renders a number child. */
module Strings {

  /** `xs.join(sep)`: the elements in order, with `sep` between neighbours. A non-empty join
      starts with the first element and ends with the last. */
  function Join(xs: seq<string>, sep: string): (r: string)
    ensures xs != [] ==> |xs[0]| <= |r| && r[..|xs[0]|] == xs[0]
    ensures xs != [] ==> |xs[|xs| - 1]| <= |r| && r[|r| - |xs[|xs| - 1]|..] == xs[|xs| - 1]
    decreases |xs|
  {
    if xs == [] then ""
    else if |xs| == 1 then xs[0]
    else xs[0] + sep + Join(xs[1..], sep)
  }

  /** Total length of the strings of `xs`. */
  function TotalLength(xs: seq<string>): nat
    decreases |xs|
  {
    if xs == [] then 0 else |xs[0]| + TotalLength(xs[1..])
  }

  /** Joining no strings gives the empty string; joining one gives it back unchanged. */
  lemma JoinShort(sep: string, x: string)
    ensures Join([], sep) == ""
    ensures Join([x], sep) == x
  {
  }

  /** Appending one element adds one separator and that element at the end. */
  lemma {:induction false} JoinSnoc(xs: seq<string>, x: string, sep: string)
    requires xs != []
    ensures Join(xs + [x], sep) == Join(xs, sep) + sep + x
    decreases |xs|
  {
    if |xs| == 1 {
      assert xs + [x] == [xs[0], x];
      assert [xs[0], x][1..] == [x];
    } else {
      assert (xs + [x])[1..] == xs[1..] + [x];
      JoinSnoc(xs[1..], x, sep);
    }
  }

  /** The joined string holds every character of every element and one separator per gap. */
  lemma {:induction false} JoinLength(xs: seq<string>, sep: string)
    requires xs != []
    ensures |Join(xs, sep)| == TotalLength(xs) + |sep| * (|xs| - 1)
    decreases |xs|
  {
    if |xs| > 1 {
      var rest := Join(xs[1..], sep);
      JoinLength(xs[1..], sep);
      assert |Join(xs, sep)| == |xs[0]| + |sep| + |rest| by {
        assert Join(xs, sep) == xs[0] + sep + rest;
      }
      SeparatorStep(|xs[0]|, |sep|, |rest|, TotalLength(xs[1..]), |xs| - 2);
    }
  }

  /** One more element adds its own length and one more separator. */
  lemma SeparatorStep(head: nat, sepLen: nat, restLen: nat, restTotal: nat, gaps: nat)
    requires restLen == restTotal + sepLen * gaps
    ensures head + sepLen + restLen == (head + restTotal) + sepLen * (gaps + 1)
  {
  }

  /** The character for a digit value. */
  function DigitChar(d: nat): (c: char)
    requires d < 10
    ensures '0' <= c <= '9' && (c as int) - ('0' as int) == d
  {
    ((('0' as int) + d) as char)
  }

  predicate IsDigits(s: string) {
    forall i :: 0 <= i < |s| ==> '0' <= s[i] <= '9'
  }

  /** The decimal form of a count `n`, as React renders a number child: digits only, at least
      one, and no leading zero unless `n` is zero. */
  function Decimal(n: nat): (s: string)
    ensures 1 <= |s| && IsDigits(s)
    ensures s[0] == '0' <==> n == 0
    ensures n < 10 <==> |s| == 1
    decreases n
  {
    if n < 10 then [DigitChar(n)] else Decimal(n / 10) + [DigitChar(n % 10)]
  }

  /** The value a string of digits denotes. */
  function DigitsValue(s: string): nat
    requires IsDigits(s)
    decreases |s|
  {
    if s == [] then 0
    else DigitsValue(s[..|s| - 1]) * 10 + ((s[|s| - 1] as int) - ('0' as int))
  }

  /** Reading the decimal form back gives the number. */
  lemma {:induction false} DecimalRoundTrip(n: nat)
    ensures DigitsValue(Decimal(n)) == n
    decreases n
  {
    var s := Decimal(n);
    if n >= 10 {
      DecimalRoundTrip(n / 10);
      assert s[..|s| - 1] == Decimal(n / 10);
    }
  }

  /** Distinct numbers are printed differently. */
  lemma DecimalInjective(m: nat, n: nat)
    ensures Decimal(m) == Decimal(n) <==> m == n
  {
    if Decimal(m) == Decimal(n) {
      DecimalRoundTrip(m);
      DecimalRoundTrip(n);
    }
  }
}
