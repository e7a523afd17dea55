/**
 * String helpers the SDK relies on from PHP's runtime: `implode`, the
 * matching split a server performs on a joined list, and the zero-padded
 * decimal rendering used by `DateTime::format`.
 */
module Text {

  predicate IsDigit(c: char) {
    '0' <= c <= '9'
  }

  /** How often `c` occurs in `s`. */
  function Count(s: string, c: char): nat
  {
    if |s| == 0 then 0 else (if s[0] == c then 1 else 0) + Count(s[1..], c)
  }

  lemma {:induction false} CountAppend(a: string, b: string, c: char)
    ensures Count(a + b, c) == Count(a, c) + Count(b, c)
    decreases |a|
  {
    if |a| > 0 {
      assert (a + b)[1..] == a[1..] + b;
      CountAppend(a[1..], b, c);
    } else {
      assert a + b == b;
    }
  }

  lemma {:induction false} CountAbsent(a: string, c: char)
    requires c !in a
    ensures Count(a, c) == 0
    decreases |a|
  {
    if |a| > 0 {
      assert c !in a[1..];
      CountAbsent(a[1..], c);
    }
  }

  /** The summed lengths of `parts`. */
  function TotalLength(parts: seq<string>): nat
  {
    if |parts| == 0 then 0 else |parts[0]| + TotalLength(parts[1..])
  }

  /**
   * `implode(sep, parts)`: the parts in order, separated by `sep`. Exactly
   * one separator is added between neighbours and nothing else.
   */
  function Join(parts: seq<string>, sep: char): (s: string)
    ensures |parts| == 0 ==> s == ""
    ensures |parts| > 0 ==> |s| == TotalLength(parts) + |parts| - 1
    ensures (forall i :: 0 <= i < |parts| ==> sep !in parts[i]) ==> Count(s, sep) == if |parts| == 0 then 0 else |parts| - 1
  {
    if |parts| == 0 then ""
    else if |parts| == 1 then
      (if sep !in parts[0] then CountAbsent(parts[0], sep); parts[0] else parts[0])
    else
      var rest := Join(parts[1..], sep);
      CountAppend(parts[0], [sep], sep);
      CountAppend(parts[0] + [sep], rest, sep);
      if sep !in parts[0] then CountAbsent(parts[0], sep); parts[0] + [sep] + rest
      else parts[0] + [sep] + rest
  }

  /** Splitting at every `sep`; joining the pieces again gives back `s`. */
  function Split(s: string, sep: char): (parts: seq<string>)
    ensures |parts| >= 1
    ensures forall i :: 0 <= i < |parts| ==> sep !in parts[i]
    ensures Join(parts, sep) == s
    decreases |s|
  {
    if |s| == 0 then [""]
    else if s[0] == sep then
      var rest := Split(s[1..], sep);
      assert s == [sep] + s[1..];
      [""] + rest
    else
      var rest := Split(s[1..], sep);
      assert s == [s[0]] + s[1..];
      assert Join(rest, sep) == rest[0] + (if |rest| == 1 then "" else [sep] + Join(rest[1..], sep));
      [[s[0]] + rest[0]] + rest[1..]
  }

  lemma {:induction false} SplitSeparatorFree(x: string, sep: char)
    requires sep !in x
    ensures Split(x, sep) == [x]
    decreases |x|
  {
    if x != [] {
      SplitSeparatorFree(x[1..], sep);
      assert [x[0]] + x[1..] == x;
    }
  }

  lemma {:induction false} SplitAfterField(x: string, t: string, sep: char)
    requires sep !in x
    ensures Split(x + [sep] + t, sep) == [x] + Split(t, sep)
    decreases |x|
  {
    var s := x + [sep] + t;
    if x == [] {
      assert s[0] == sep && s[1..] == t;
    } else {
      assert s[0] == x[0] && s[1..] == x[1..] + [sep] + t;
      SplitAfterField(x[1..], t, sep);
      assert [x[0]] + x[1..] == x;
    }
  }

  /** Joining separator-free parts loses nothing: order and repeats survive. */
  lemma {:induction false} SplitJoin(parts: seq<string>, sep: char)
    requires |parts| >= 1
    requires forall i :: 0 <= i < |parts| ==> sep !in parts[i]
    ensures Split(Join(parts, sep), sep) == parts
    decreases |parts|
  {
    if |parts| == 1 {
      SplitSeparatorFree(parts[0], sep);
    } else {
      SplitJoin(parts[1..], sep);
      SplitAfterField(parts[0], Join(parts[1..], sep), sep);
      assert [parts[0]] + parts[1..] == parts;
    }
  }

  function DigitChar(d: int): (c: char)
    requires 0 <= d <= 9
    ensures IsDigit(c)
  {
    ('0' as int + d) as char
  }

  /** Decimal digits of `n`, left-padded with zeros to at least `width` digits. */
  function Decimal(n: nat, width: nat): (s: string)
    ensures |s| >= 1 && |s| >= width
    ensures forall i :: 0 <= i < |s| ==> IsDigit(s[i])
    decreases n + width
  {
    if n < 10 && width <= 1 then [DigitChar(n)]
    else Decimal(n / 10, if width == 0 then 0 else width - 1) + [DigitChar(n % 10)]
  }

  /** The number a string of decimal digits denotes. */
  function DecimalValue(s: string): int
  {
    if s == [] then 0 else DecimalValue(s[..|s| - 1]) * 10 + (s[|s| - 1] as int - '0' as int)
  }

  lemma {:induction false} DecimalRoundTrip(n: nat, width: nat)
    ensures DecimalValue(Decimal(n, width)) == n
    decreases n + width
  {
    if !(n < 10 && width <= 1) {
      var w := if width == 0 then 0 else width - 1;
      DecimalRoundTrip(n / 10, w);
      var s := Decimal(n, width);
      assert s[..|s| - 1] == Decimal(n / 10, w);
    }
  }

  function Pow10(k: nat): nat
  {
    if k == 0 then 1 else 10 * Pow10(k - 1)
  }

  lemma {:induction false} DecimalLength(n: nat, width: nat)
    requires 1 <= width && n < Pow10(width)
    ensures |Decimal(n, width)| == width
    decreases width
  {
    if !(n < 10 && width <= 1) {
      assert width >= 2;
      DecimalLength(n / 10, width - 1);
    }
  }
}
