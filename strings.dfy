/** The few JavaScript string operations the plugin relies on: truthiness of a
    string option, `Array.prototype.join`, `String.prototype.split` (its
    inverse), prefix tests and the decimal rendering of a non-negative integer. */
module Strings {
  import opened Wrappers

  /** JavaScript truthiness of a value that is a string or `undefined`:
      `undefined` and the empty string are falsy. */
  predicate Truthy(v: Option<string>) {
    v.Some? && v.value != ""
  }

  /** The JavaScript expression `a || b` on two string-or-undefined values. */
  function Or(a: Option<string>, b: Option<string>): (r: Option<string>)
    ensures Truthy(r) <==> Truthy(a) || Truthy(b)
    ensures Truthy(a) ==> r == a
    ensures !Truthy(a) ==> r == b
  {
    if Truthy(a) then a else b
  }

  predicate StartsWith(s: string, prefix: string) {
    |prefix| <= |s| && forall i :: 0 <= i < |prefix| ==> s[i] == prefix[i]
  }

  predicate EndsWith(s: string, suffix: string) {
    |suffix| <= |s| && s[|s| - |suffix|..] == suffix
  }

  lemma StartsWithConcat(prefix: string, rest: string)
    ensures StartsWith(prefix + rest, prefix)
  {
  }

  /** `parts.join(sep)`: the parts with one separator between neighbours. */
  function Join(parts: seq<string>, sep: char): (r: string)
    ensures |parts| == 0 ==> r == ""
    ensures |parts| >= 1 ==> StartsWith(r, parts[0])
    ensures |r| == SumLengths(parts) + (if |parts| == 0 then 0 else |parts| - 1)
  {
    if |parts| == 0 then ""
    else if |parts| == 1 then parts[0]
    else parts[0] + [sep] + Join(parts[1..], sep)
  }

  /** The total length of the parts. */
  function SumLengths(parts: seq<string>): nat {
    if parts == [] then 0 else |parts[0]| + SumLengths(parts[1..])
  }

  lemma JoinCons(first: string, rest: seq<string>, sep: char)
    requires |rest| >= 1
    ensures Join([first] + rest, sep) == first + [sep] + Join(rest, sep)
  {
    assert ([first] + rest)[1..] == rest;
  }

  /** Two leading parts in front of a non-empty rest, each followed by `sep`. */
  lemma JoinTwo(a: string, b: string, rest: seq<string>, sep: char)
    requires |rest| >= 1
    ensures Join([a, b] + rest, sep) == a + ([sep] + (b + ([sep] + Join(rest, sep))))
  {
    var tail := [b] + rest;
    assert [a, b] + rest == [a] + tail;
    JoinCons(a, tail, sep);
    JoinCons(b, rest, sep);
  }

  /** Four leading parts in front of a non-empty rest, each followed by `sep`. */
  lemma JoinFour(a: string, b: string, c: string, d: string, rest: seq<string>, sep: char)
    requires |rest| >= 1
    ensures Join([a, b, c, d] + rest, sep) == a + ([sep] + (b + ([sep] + (c + ([sep] + (d + ([sep] + Join(rest, sep))))))))
  {
    var tail := [c, d] + rest;
    assert [a, b, c, d] + rest == [a, b] + tail;
    JoinTwo(a, b, tail, sep);
    JoinTwo(c, d, rest, sep);
  }

  /** `s.split(sep)` for a one-character separator: the maximal runs between
      separators, so there is always at least one piece. */
  function Split(s: string, sep: char): (r: seq<string>)
    ensures |r| >= 1
    ensures sep !in s ==> r == [s]
  {
    if s == [] then [""]
    else
      var rest := Split(s[1..], sep);
      if s[0] == sep then [""] + rest
      else
        assert [s[0]] + s[1..] == s;
        [[s[0]] + rest[0]] + rest[1..]
  }

  lemma {:induction false} SplitAfterPiece(a: string, sep: char, b: string)
    requires sep !in a
    ensures Split(a + [sep] + b, sep) == [a] + Split(b, sep)
  {
    var s := a + [sep] + b;
    if a == [] {
      assert s[0] == sep && s[1..] == b;
    } else {
      assert s[0] == a[0] && s[1..] == a[1..] + [sep] + b;
      SplitAfterPiece(a[1..], sep, b);
      assert [a[0]] + a[1..] == a;
    }
  }

  /** Splitting a joined list gives the list back when no part contains the
      separator (a list of no parts joins to "", which splits to [""]). */
  lemma {:induction false} SplitJoin(parts: seq<string>, sep: char)
    requires |parts| >= 1
    requires forall i :: 0 <= i < |parts| ==> sep !in parts[i]
    ensures Split(Join(parts, sep), sep) == parts
  {
    if |parts| > 1 {
      SplitJoin(parts[1..], sep);
      SplitAfterPiece(parts[0], sep, Join(parts[1..], sep));
      assert [parts[0]] + parts[1..] == parts;
    }
  }

  lemma EndsWithConcat(prefix: string, s: string, suffix: string)
    requires EndsWith(s, suffix)
    ensures EndsWith(prefix + s, suffix)
  {
    assert (prefix + s)[|prefix + s| - |suffix|..] == s[|s| - |suffix|..];
  }

  /** A non-empty join ends with its last part. */
  lemma {:induction false} JoinEndsWithLast(parts: seq<string>, sep: char)
    requires |parts| >= 2
    ensures EndsWith(Join(parts, sep), [sep] + parts[|parts| - 1])
  {
    var last := parts[|parts| - 1];
    if |parts| == 2 {
      assert Join(parts, sep) == parts[0] + ([sep] + last);
      assert ([sep] + last)[0..] == [sep] + last;
      EndsWithConcat(parts[0], [sep] + last, [sep] + last);
    } else {
      JoinEndsWithLast(parts[1..], sep);
      assert parts[1..][|parts| - 2] == last;
      var tail := Join(parts[1..], sep);
      assert Join(parts, sep) == (parts[0] + [sep]) + tail;
      EndsWithConcat(parts[0] + [sep], tail, [sep] + last);
    }
  }

  /** The text before the first `sep` and the text after it, when `s` holds
      a `sep` at all. */
  function SplitAtFirst(s: string, sep: char): (r: Option<(string, string)>)
    ensures r.None? <==> sep !in s
    ensures r.Some? ==> sep !in r.value.0 && s == r.value.0 + [sep] + r.value.1
  {
    if s == [] then None
    else if s[0] == sep then
      assert s == [] + [sep] + s[1..];
      Some(([], s[1..]))
    else
      match SplitAtFirst(s[1..], sep)
      case None => None
      case Some((before, after)) =>
        assert s == [s[0]] + s[1..];
        Some(([s[0]] + before, after))
  }

  /** A text with no `sep` followed by `sep` splits back at that `sep`. */
  lemma {:induction false} SplitAtFirstConcat(a: string, sep: char, b: string)
    requires sep !in a
    ensures SplitAtFirst(a + [sep] + b, sep) == Some((a, b))
  {
    var s := a + [sep] + b;
    if a == [] {
      assert s[0] == sep && s[1..] == b;
    } else {
      assert s[0] == a[0] && s[1..] == a[1..] + [sep] + b;
      SplitAtFirstConcat(a[1..], sep, b);
      assert [a[0]] + a[1..] == a;
    }
  }

  function DigitChar(d: nat): (c: char)
    requires d < 10
    ensures '0' <= c <= '9'
  {
    (('0' as int) + d) as char
  }

  predicate IsDigits(s: string) {
    forall i :: 0 <= i < |s| ==> '0' <= s[i] <= '9'
  }

  /** The plain decimal digits of a non-negative integer `n`: never empty,
      no leading zero except for 0 itself. This is what JavaScript's `'' + n`
      gives for integers below 10^21 that a double holds exactly (up to
      2^53); larger counts print differently there. */
  function DecimalString(n: nat): (r: string)
    ensures |r| >= 1 && IsDigits(r)
    ensures r[0] == '0' <==> n == 0
  {
    if n < 10 then [DigitChar(n)]
    else DecimalString(n / 10) + [DigitChar(n % 10)]
  }

  /** The value of a string of decimal digits. */
  function ParseDecimal(s: string): nat
    requires IsDigits(s)
  {
    if s == [] then 0
    else ParseDecimal(s[..|s| - 1]) * 10 + (s[|s| - 1] as int - '0' as int)
  }

  lemma {:induction false} ParseDecimalString(n: nat)
    ensures ParseDecimal(DecimalString(n)) == n
  {
    var r := DecimalString(n);
    if n >= 10 {
      ParseDecimalString(n / 10);
      assert r[..|r| - 1] == DecimalString(n / 10);
    }
  }
}
