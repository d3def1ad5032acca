/**
 * The string operations of Go's standard library that the agent relies on:
 * strings.TrimRight with the cut set "\n", strings.Join, strings.Split (used
 * only to read rendered text back) and the `%d` verb of fmt.
 */
module Strings {
  import opened Wrappers

  /** strings.TrimRight(s, "\n"): every trailing newline is removed, and
      nothing else. The result is a prefix of s with no trailing newline, and
      what was cut off consists of newlines only. */
  function TrimNewlines(s: string): (r: string)
    ensures |r| <= |s| && s[..|r|] == r
    ensures r == [] || r[|r| - 1] != '\n'
    ensures forall i :: |r| <= i < |s| ==> s[i] == '\n'
    decreases |s|
  {
    if |s| > 0 && s[|s| - 1] == '\n' then TrimNewlines(s[..|s| - 1]) else s
  }

  /** n newline characters. */
  function Newlines(n: nat): (r: string)
    ensures |r| == n
    ensures forall i :: 0 <= i < n ==> r[i] == '\n'
  {
    if n == 0 then "" else Newlines(n - 1) + "\n"
  }

  /** The input of TrimNewlines is its result followed by zero or more newlines. */
  lemma TrimNewlinesSplitsInput(s: string)
    ensures s == TrimNewlines(s) + Newlines(|s| - |TrimNewlines(s)|)
  {
    var r := TrimNewlines(s);
    var tail := Newlines(|s| - |r|);
    assert |r + tail| == |s|;
    forall i | 0 <= i < |s| ensures (r + tail)[i] == s[i] {
      if i < |r| {
        assert s[..|r|][i] == s[i];
      }
    }
  }

  /** Trimming text that has no trailing newline, followed by k newlines,
      gives the text back. */
  lemma {:induction false} TrimNewlinesOfPadded(t: string, k: nat)
    requires t == [] || t[|t| - 1] != '\n'
    ensures TrimNewlines(t + Newlines(k)) == t
  {
    if k > 0 {
      var s := t + Newlines(k);
      assert s[..|s| - 1] == t + Newlines(k - 1);
      TrimNewlinesOfPadded(t, k - 1);
    } else {
      assert t + Newlines(0) == t;
    }
  }

  /** strings.Join(parts, string(sep)). */
  function Join(parts: seq<string>, sep: char): (r: string)
    ensures |parts| == 0 ==> r == ""
    ensures |parts| >= 1 ==> parts[0] <= r
    decreases |parts|
  {
    if |parts| == 0 then ""
    else if |parts| == 1 then parts[0]
    else parts[0] + [sep] + Join(parts[1..], sep)
  }

  /** strings.Join puts one separator between each two parts, and no more
      when the parts do not contain it themselves. */
  lemma {:induction false} JoinSeparatorCount(parts: seq<string>, sep: char)
    requires forall i :: 0 <= i < |parts| ==> sep !in parts[i]
    ensures multiset(Join(parts, sep))[sep] == if |parts| == 0 then 0 else |parts| - 1
    decreases |parts|
  {
    if |parts| == 1 {
      assert multiset(parts[0])[sep] == 0;
    } else if |parts| > 1 {
      JoinSeparatorCount(parts[1..], sep);
      assert multiset(parts[0])[sep] == 0;
      var rest := Join(parts[1..], sep);
      assert multiset(parts[0] + [sep] + rest) == multiset(parts[0]) + multiset([sep]) + multiset(rest);
    }
  }

  /** strings.Split(s, string(sep)) for a one-character separator: the pieces
      between separators, always at least one. */
  function Split(s: string, sep: char): (parts: seq<string>)
    ensures |parts| >= 1
    decreases |s|
  {
    if s == [] then [""]
    else
      var rest := Split(s[1..], sep);
      if s[0] == sep then [""] + rest
      else [[s[0]] + rest[0]] + rest[1..]
  }

  /** Text without the separator is a single piece. */
  lemma {:induction false} SplitWithoutSeparator(a: string, sep: char)
    requires sep !in a
    ensures Split(a, sep) == [a]
    decreases |a|
  {
    if a != [] {
      SplitWithoutSeparator(a[1..], sep);
      assert [a[0]] + a[1..] == a;
    }
  }

  /** A separator between two texts separates their pieces. */
  lemma {:induction false} SplitConcat(a: string, b: string, sep: char)
    ensures Split(a + [sep] + b, sep) == Split(a, sep) + Split(b, sep)
    decreases |a|
  {
    var s := a + [sep] + b;
    if a == [] {
      assert s[0] == sep && s[1..] == b;
    } else {
      assert s[0] == a[0] && s[1..] == a[1..] + [sep] + b;
      SplitConcat(a[1..], b, sep);
    }
  }

  /** No joined part contains c, and neither does the separator: then the
      joined text does not either. */
  lemma {:induction false} JoinAvoids(parts: seq<string>, sep: char, c: char)
    requires sep != c
    requires forall i :: 0 <= i < |parts| ==> c !in parts[i]
    ensures c !in Join(parts, sep)
    decreases |parts|
  {
    if |parts| > 1 {
      JoinAvoids(parts[1..], sep, c);
    }
  }

  /** Split undoes Join when no part contains the separator and there is at
      least one part (Join of no parts and of one empty part are both ""). */
  lemma {:induction false} SplitJoin(parts: seq<string>, sep: char)
    requires |parts| >= 1
    requires forall i :: 0 <= i < |parts| ==> sep !in parts[i]
    ensures Split(Join(parts, sep), sep) == parts
    decreases |parts|
  {
    if |parts| == 1 {
      SplitWithoutSeparator(parts[0], sep);
    } else {
      SplitJoin(parts[1..], sep);
      SplitConcat(parts[0], Join(parts[1..], sep), sep);
      SplitWithoutSeparator(parts[0], sep);
      assert [parts[0]] + parts[1..] == parts;
    }
  }

  predicate IsDigit(c: char) { '0' <= c <= '9' }

  predicate AllDigits(s: string) { forall i :: 0 <= i < |s| ==> IsDigit(s[i]) }

  function DigitChar(d: nat): (c: char)
    requires d < 10
    ensures IsDigit(c)
  {
    ('0' as int + d) as char
  }

  /** The decimal digits of n, most significant first, without leading zeros. */
  function NatToDecimal(n: nat): (s: string)
    ensures |s| >= 1 && AllDigits(s)
    ensures |s| > 1 ==> s[0] != '0'
    decreases n
  {
    if n < 10 then [DigitChar(n)] else NatToDecimal(n / 10) + [DigitChar(n % 10)]
  }

  /** fmt's `%d` for an int: a minus sign before the digits of a negative number. */
  function IntToDecimal(n: int): (s: string)
    ensures '\n' !in s && ',' !in s
  {
    var digits := NatToDecimal(if n < 0 then -n else n);
    assert forall i :: 0 <= i < |digits| ==> digits[i] != '\n' && digits[i] != ',';
    if n < 0 then "-" + digits else digits
  }

  /** The number a non-empty run of decimal digits denotes. */
  function DigitsValue(s: string): nat
    requires AllDigits(s)
    decreases |s|
  {
    if s == [] then 0
    else DigitsValue(s[..|s| - 1]) * 10 + (s[|s| - 1] as int - '0' as int)
  }

  /** Reads back what `%d` writes: an optional minus sign and at least one digit. */
  function ParseDecimal(s: string): Option<int> {
    if |s| >= 2 && s[0] == '-' && AllDigits(s[1..]) then
      var magnitude: int := DigitsValue(s[1..]);
      Some(-magnitude)
    else if |s| >= 1 && AllDigits(s) then Some(DigitsValue(s) as int)
    else None
  }

  lemma {:induction false} DigitsValueOfDecimal(n: nat)
    ensures DigitsValue(NatToDecimal(n)) == n
    decreases n
  {
    var s := NatToDecimal(n);
    if n < 10 {
      assert s[..|s| - 1] == [];
    } else {
      DigitsValueOfDecimal(n / 10);
      assert s[..|s| - 1] == NatToDecimal(n / 10);
    }
  }

  /** `%d` rendering is read back exactly. */
  lemma ParseDecimalRoundTrip(n: int)
    ensures ParseDecimal(IntToDecimal(n)) == Some(n)
  {
    var m: nat := if n < 0 then -n else n;
    var digits := NatToDecimal(m);
    DigitsValueOfDecimal(m);
    if n < 0 {
      var s := "-" + digits;
      assert s[1..] == digits;
    } else {
      assert digits[0] != '-';
    }
  }
}
