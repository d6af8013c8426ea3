/**
 * The handful of Python string operations the core relies on, over
 * `seq<char>`: substring test, prefix test, left-to-right replacement,
 * `splitlines`, `join`, splitting on a separator, and decimal digits.
 */
module Strings {

  /** `p` occurs at the front of `s`. */
  predicate StartsWith(s: string, p: string)
  {
    |p| <= |s| && s[..|p|] == p
  }

  /** `p in s` */
  predicate Contains(s: string, p: string)
    decreases |s|
  {
    StartsWith(s, p) || (|s| > 0 && Contains(s[1..], p))
  }

  /** A string contains whatever a part of it contains. */
  lemma {:induction false} ContainsConcat(a: string, b: string, p: string)
    ensures Contains(a, p) ==> Contains(a + b, p)
    ensures Contains(b, p) ==> Contains(a + b, p)
    decreases |a|
  {
    if |a| > 0 {
      assert (a + b)[1..] == a[1..] + b;
      ContainsConcat(a[1..], b, p);
      if StartsWith(a, p) {
        assert (a + b)[..|p|] == a[..|p|];
      }
    } else {
      assert a + b == b;
      if Contains(a, p) {
        assert StartsWith(a, p) && |p| == 0;
        assert (a + b)[..0] == p;
      }
    }
  }

  /**
   * `s.replace(p, r)`: every occurrence of `p`, found left to right and not
   * overlapping, replaced by `r`.
   */
  function ReplaceAll(s: string, p: string, r: string): string
    requires |p| > 0
    decreases |s|
  {
    if |s| < |p| then s
    else if s[..|p|] == p then r + ReplaceAll(s[|p|..], p, r)
    else [s[0]] + ReplaceAll(s[1..], p, r)
  }

  /** A shorter replacement never lengthens the string, and shortens it when `p` occurs. */
  lemma {:induction false} ReplaceAllShrinks(s: string, p: string, r: string)
    requires |r| < |p|
    ensures |ReplaceAll(s, p, r)| <= |s|
    ensures Contains(s, p) ==> |ReplaceAll(s, p, r)| < |s|
    ensures !Contains(s, p) ==> ReplaceAll(s, p, r) == s
    decreases |s|
  {
    if |s| >= |p| {
      if s[..|p|] == p {
        ReplaceAllShrinks(s[|p|..], p, r);
      } else {
        ReplaceAllShrinks(s[1..], p, r);
        assert !StartsWith(s, p);
        if !Contains(s, p) {
          assert s == [s[0]] + s[1..];
        }
      }
    } else {
      NoRoomNoOccurrence(s, p);
    }
  }

  lemma {:induction false} NoRoomNoOccurrence(s: string, p: string)
    requires |s| < |p|
    ensures !Contains(s, p)
    decreases |s|
  {
    if |s| > 0 {
      NoRoomNoOccurrence(s[1..], p);
    }
  }

  /** The characters at which `str.splitlines` breaks a line. */
  predicate IsLineBreak(c: char)
  {
    c == '\n' || c == '\r' || c == '\U{000B}' || c == '\U{000C}' || c == '\U{001C}' || c == '\U{001D}'
    || c == '\U{001E}' || c == '\U{0085}' || c == '\U{2028}' || c == '\U{2029}'
  }

  /** The index of the first line break in `s`, or `|s|` when there is none. */
  function FirstBreak(s: string): (i: nat)
    ensures i <= |s|
    ensures i < |s| ==> IsLineBreak(s[i])
    ensures forall k :: 0 <= k < i ==> !IsLineBreak(s[k])
    decreases |s|
  {
    if |s| == 0 then 0
    else if IsLineBreak(s[0]) then 0
    else 1 + FirstBreak(s[1..])
  }

  /** Whether `s` holds no line break. */
  predicate OneLine(s: string)
  {
    forall k :: 0 <= k < |s| ==> !IsLineBreak(s[k])
  }

  /**
   * `s.splitlines()`: the lines of `s` without their terminators, a
   * carriage return followed by a line feed counting as one terminator; a
   * terminator at the very end starts no further line.
   */
  function SplitLines(s: string): (lines: seq<string>)
    ensures forall j :: 0 <= j < |lines| ==> OneLine(lines[j])
    ensures |s| == 0 <==> |lines| == 0
    decreases |s|
  {
    if |s| == 0 then []
    else
      var i := FirstBreak(s);
      if i == |s| then [s]
      else
        var w := if s[i] == '\r' && i + 1 < |s| && s[i + 1] == '\n' then 2 else 1;
        [s[..i]] + SplitLines(s[i + w..])
  }

  /** Text without a line break is one line, itself. */
  lemma SplitOneLine(s: string)
    requires |s| > 0 && OneLine(s)
    ensures SplitLines(s) == [s]
  {
    assert FirstBreak(s) == |s|;
  }

  /** `sep.join(parts)` */
  function Join(sep: string, parts: seq<string>): string
    decreases |parts|
  {
    if |parts| == 0 then ""
    else if |parts| == 1 then parts[0]
    else Join(sep, parts[..|parts| - 1]) + sep + parts[|parts| - 1]
  }

  /** Joining one more part appends the separator and that part. */
  lemma JoinSnoc(sep: string, parts: seq<string>, x: string)
    ensures Join(sep, parts + [x]) == if |parts| == 0 then x else Join(sep, parts) + sep + x
  {
    assert (parts + [x])[..|parts|] == parts;
  }

  /** The parts of `s` between occurrences of the one-character separator `c` (`s.split(c)`). */
  function SplitOn(s: string, c: char): (parts: seq<string>)
    ensures |parts| > 0
    ensures forall j :: 0 <= j < |parts| ==> c !in parts[j]
    decreases |s|
  {
    if |s| == 0 then [""]
    else
      var rest := SplitOn(s[..|s| - 1], c);
      if s[|s| - 1] == c then rest + [""]
      else rest[..|rest| - 1] + [rest[|rest| - 1] + [s[|s| - 1]]]
  }

  /** Appending a character other than `c` extends the last part. */
  lemma SplitOnSnoc(p: string, x: char, c: char)
    requires x != c
    ensures var rest := SplitOn(p, c);
      SplitOn(p + [x], c) == rest[..|rest| - 1] + [rest[|rest| - 1] + [x]]
  {
    assert (p + [x])[..|p|] == p;
  }

  /** Splitting on `c` and joining with `c` gives back the string. */
  lemma {:induction false} JoinSplitOn(s: string, c: char)
    ensures Join([c], SplitOn(s, c)) == s
    decreases |s|
  {
    if |s| > 0 {
      var pre := s[..|s| - 1];
      var rest := SplitOn(pre, c);
      JoinSplitOn(pre, c);
      assert s == pre + [s[|s| - 1]];
      if s[|s| - 1] == c {
        assert SplitOn(s, c) == rest + [""];
        JoinSnoc([c], rest, "");
      } else {
        SplitOnSnoc(pre, s[|s| - 1], c);
        JoinGrowLast([c], rest, s[|s| - 1]);
      }
    }
  }

  /** Growing the last part grows the joined string by the same character. */
  lemma JoinGrowLast(sep: string, parts: seq<string>, ch: char)
    requires |parts| > 0
    ensures Join(sep, parts[..|parts| - 1] + [parts[|parts| - 1] + [ch]]) == Join(sep, parts) + [ch]
  {
    var init := parts[..|parts| - 1];
    var last := parts[|parts| - 1];
    assert parts == init + [last];
    JoinSnoc(sep, init, last);
    JoinSnoc(sep, init, last + [ch]);
  }

  /** The decimal digits of a natural number. */
  function NatToString(n: nat): (s: string)
    ensures |s| > 0
    ensures forall k :: 0 <= k < |s| ==> '0' <= s[k] <= '9'
    decreases n
  {
    if n < 10 then [DigitChar(n)] else NatToString(n / 10) + [DigitChar(n % 10)]
  }

  function DigitChar(d: nat): (c: char)
    requires d < 10
    ensures '0' <= c <= '9'
  {
    ['0', '1', '2', '3', '4', '5', '6', '7', '8', '9'][d]
  }

  /** `str(i)` of an integer. */
  function IntToString(i: int): string
  {
    if i < 0 then "-" + NatToString(-i) else NatToString(i)
  }

  /** The value of a string of decimal digits. */
  function DigitsValue(s: string): nat
    requires forall k :: 0 <= k < |s| ==> '0' <= s[k] <= '9'
    decreases |s|
  {
    if |s| == 0 then 0 else 10 * DigitsValue(s[..|s| - 1]) + ((s[|s| - 1] as int) - ('0' as int))
  }

  /** Reading back the digits gives the number. */
  lemma {:induction false} NatToStringValue(n: nat)
    ensures DigitsValue(NatToString(n)) == n
    decreases n
  {
    if n >= 10 {
      NatToStringValue(n / 10);
      var s := NatToString(n);
      assert s[..|s| - 1] == NatToString(n / 10);
      assert s[|s| - 1] == DigitChar(n % 10);
    }
    assert DigitChar(n % 10) as int - '0' as int == n % 10;
  }

  /** Upper-casing of ASCII letters (`str.upper` on the symbols the core handles). */
  function Upper(s: string): (u: string)
    ensures |u| == |s|
    ensures forall k :: 0 <= k < |s| ==> u[k] == UpperChar(s[k])
    decreases |s|
  {
    if |s| == 0 then "" else Upper(s[..|s| - 1]) + [UpperChar(s[|s| - 1])]
  }

  function UpperChar(c: char): char
  {
    if 'a' <= c <= 'z' then (c as int - 'a' as int + 'A' as int) as char else c
  }

  /** `s` with every `c` removed. */
  function Without(s: string, c: char): (r: string)
    ensures c !in r
    ensures |r| <= |s|
    decreases |s|
  {
    if |s| == 0 then "" else Without(s[..|s| - 1], c) + (if s[|s| - 1] == c then "" else [s[|s| - 1]])
  }
}
