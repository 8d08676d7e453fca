/** The handful of Go string routines the client relies on: `strings.Split` with a
    one-character separator (used to split `KEY=VALUE` arguments) and the decimal
    rendering of integers done by `%d`. */
module Strings {

  /** Number of occurrences of `c` in `s`. */
  function Count(s: string, c: char): (n: nat)
    ensures n <= |s|
    ensures n == 0 <==> c !in s
    decreases |s|
  {
    if s == [] then 0
    else (if s[0] == c then 1 else 0) + Count(s[1..], c)
  }

  /** `strings.Join(parts, string(sep))`. */
  function JoinWith(parts: seq<string>, sep: char): string
    requires |parts| >= 1
    decreases |parts|
  {
    if |parts| == 1 then parts[0] else parts[0] + [sep] + JoinWith(parts[1..], sep)
  }

  /** `strings.Split(s, string(sep))`: the pieces of `s` between occurrences of `sep`.
      There is always one more piece than there are separators, no piece contains the
      separator, and joining the pieces back with the separator gives `s`. */
  function Split(s: string, sep: char): (parts: seq<string>)
    ensures |parts| == Count(s, sep) + 1
    ensures forall i :: 0 <= i < |parts| ==> sep !in parts[i]
    ensures JoinWith(parts, sep) == s
    decreases |s|
  {
    if s == [] then [""]
    else
      var rest := Split(s[1..], sep);
      if s[0] == sep then
        assert s == [] + [sep] + JoinWith(rest, sep);
        [""] + rest
      else
        JoinFirst(s[0], rest, sep);
        assert s == [s[0]] + s[1..];
        [[s[0]] + rest[0]] + rest[1..]
  }

  /** Prepending a character to the first piece prepends it to the joined text. */
  lemma {:induction false} JoinFirst(c: char, parts: seq<string>, sep: char)
    requires |parts| >= 1
    ensures JoinWith([[c] + parts[0]] + parts[1..], sep) == [c] + JoinWith(parts, sep)
  {
    var q := [[c] + parts[0]] + parts[1..];
    assert q[1..] == parts[1..];
  }

  /** Splitting text that holds no separator yields the text itself. */
  lemma {:induction false} SplitNoSeparator(s: string, sep: char)
    requires sep !in s
    ensures Split(s, sep) == [s]
  {
    var parts := Split(s, sep);
    assert |parts| == 1;
  }

  /** Text in front of the first separator becomes the first piece. */
  lemma {:induction false} SplitAfterSeparator(a: string, b: string, sep: char)
    requires sep !in a
    ensures Split(a + [sep] + b, sep) == [a] + Split(b, sep)
    decreases |a|
  {
    var s := a + [sep] + b;
    if a == [] {
      assert s[1..] == b;
    } else {
      assert s[1..] == a[1..] + [sep] + b;
      SplitAfterSeparator(a[1..], b, sep);
      assert [a[0]] + a[1..] == a;
    }
  }

  /** `Split` inverts `JoinWith` when no piece contains the separator. */
  lemma {:induction false} SplitJoin(parts: seq<string>, sep: char)
    requires |parts| >= 1
    requires forall i :: 0 <= i < |parts| ==> sep !in parts[i]
    ensures Split(JoinWith(parts, sep), sep) == parts
    decreases |parts|
  {
    if |parts| == 1 {
      SplitNoSeparator(parts[0], sep);
    } else {
      SplitJoin(parts[1..], sep);
      SplitAfterSeparator(parts[0], JoinWith(parts[1..], sep), sep);
      assert [parts[0]] + parts[1..] == parts;
    }
  }

  /** The texts of several prints, one after the other. */
  function Concat(parts: seq<string>): string
    decreases |parts|
  {
    if parts == [] then "" else parts[0] + Concat(parts[1..])
  }

  /** The pieces of text made of lines that hold no separator, each ended by one,
      are those lines followed by the empty piece after the last separator. */
  lemma {:induction false} SplitLines(lines: seq<string>, ended: seq<string>, sep: char)
    requires |ended| == |lines|
    requires forall i :: 0 <= i < |lines| ==> sep !in lines[i] && ended[i] == lines[i] + [sep]
    ensures Split(Concat(ended), sep) == lines + [""]
    decreases |lines|
  {
    if lines == [] {
      assert Concat(ended) == "";
    } else {
      SplitLines(lines[1..], ended[1..], sep);
      SplitAfterSeparator(lines[0], Concat(ended[1..]), sep);
      assert Concat(ended) == lines[0] + [sep] + Concat(ended[1..]);
      assert [lines[0]] + (lines[1..] + [""]) == lines + [""];
    }
  }

  predicate IsDigit(c: char) { '0' <= c <= '9' }

  function DigitChar(d: nat): (c: char)
    requires d < 10
    ensures IsDigit(c)
  {
    (('0' as int) + d) as char
  }

  function DigitOf(c: char): (d: nat)
    requires IsDigit(c)
    ensures d < 10 && DigitChar(d) == c
  {
    (c as int) - ('0' as int)
  }

  predicate AllDigits(s: string) { forall i :: 0 <= i < |s| ==> IsDigit(s[i]) }

  /** The decimal text of a natural number, as `%d` prints it: digits only, and a
      leading zero only for zero itself. */
  function NatText(n: nat): (t: string)
    ensures |t| >= 1 && AllDigits(t)
    ensures t[0] == '0' <==> n == 0
    decreases n
  {
    if n < 10 then [DigitChar(n)] else NatText(n / 10) + [DigitChar(n % 10)]
  }

  /** The value of a run of decimal digits, read most significant first. */
  function DigitsValue(s: string): nat
    requires AllDigits(s)
    decreases |s|
  {
    if s == [] then 0 else DigitsValue(s[..|s| - 1]) * 10 + DigitOf(s[|s| - 1])
  }

  /** Reading back the decimal text of `n` gives `n`. */
  lemma {:induction false} DigitsValueNatText(n: nat)
    ensures DigitsValue(NatText(n)) == n
    decreases n
  {
    var t := NatText(n);
    if n >= 10 {
      DigitsValueNatText(n / 10);
      assert t[..|t| - 1] == NatText(n / 10);
    }
  }

  /** `%d` of an integer: a minus sign before the digits of a negative value. */
  function IntText(n: int): string
  {
    if n < 0 then "-" + NatText(-n) else NatText(n)
  }

  predicate HasPrefix(s: string, p: string) { |p| <= |s| && s[..|p|] == p }
}
