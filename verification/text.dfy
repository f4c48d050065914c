/** String utilities with the semantics of the Python built-ins the
    program uses: `sep.join(parts)`, `s.split(c)`, substring search and
    decimal rendering of integers (`str(n)`, used by f-strings). */
module Text {

  /** `sep.join(parts)`: the parts in order, with `sep` between neighbours. */
  function Join(sep: string, parts: seq<string>): string
  {
    if |parts| == 0 then ""
    else if |parts| == 1 then parts[0]
    else parts[0] + sep + Join(sep, parts[1..])
  }

  /** `s.split(c)` for a one-character separator: the maximal pieces of `s`
      that do not contain `c`, in order. There is always at least one piece. */
  function Split(s: string, c: char): (pieces: seq<string>)
    ensures |pieces| >= 1
    ensures forall i :: 0 <= i < |pieces| ==> c !in pieces[i]
    decreases |s|
  {
    if |s| == 0 then [""]
    else
      var rest := Split(s[1..], c);
      if s[0] == c then [""] + rest
      else [[s[0]] + rest[0]] + rest[1..]
  }

  /** `t` occurs in `s` starting at index `k`. */
  predicate OccursAt(t: string, s: string, k: int)
  {
    0 <= k && k + |t| <= |s| && s[k..k + |t|] == t
  }

  /** Python's `t in s` for strings. */
  predicate IsSubstring(t: string, s: string)
  {
    exists k :: 0 <= k <= |s| && OccursAt(t, s, k)
  }

  /** No element of `parts` contains the character `c`. */
  predicate NoneContain(parts: seq<string>, c: char)
  {
    forall i :: 0 <= i < |parts| ==> c !in parts[i]
  }

  // ---------------------------------------------------------------------
  // Split and Join are inverse to each other.

  /** Splitting `a + rest` where `a` has no separator glues `a` onto the
      first piece of `rest`. */
  lemma {:induction false} SplitAfterPlainPrefix(a: string, rest: string, c: char)
    requires c !in a
    ensures Split(a + rest, c) == [a + Split(rest, c)[0]] + Split(rest, c)[1..]
    decreases |a|
  {
    if |a| == 0 {
      var s := Split(rest, c);
      assert a + rest == rest;
      assert a + s[0] == s[0];
      assert [s[0]] + s[1..] == s;
    } else {
      var t := a[1..] + rest;
      assert (a + rest)[1..] == t;
      assert (a + rest)[0] == a[0];
      SplitAfterPlainPrefix(a[1..], rest, c);
      var s := Split(rest, c);
      assert Split(t, c)[0] == a[1..] + s[0];
      assert [a[0]] + (a[1..] + s[0]) == a + s[0];
    }
  }

  /** Joining with a one-character separator and splitting on it again gives
      back the parts, provided no part contains the separator. */
  lemma {:induction false} SplitJoin(parts: seq<string>, c: char)
    requires |parts| >= 1
    requires NoneContain(parts, c)
    ensures Split(Join([c], parts), c) == parts
    decreases |parts|
  {
    if |parts| == 1 {
      SplitAfterPlainPrefix(parts[0], "", c);
      assert parts[0] + "" == parts[0];
    } else {
      var tail := Join([c], parts[1..]);
      SplitJoin(parts[1..], c);
      assert parts[0] + [c] + tail == parts[0] + ([c] + tail);
      SplitAfterPlainPrefix(parts[0], [c] + tail, c);
      assert ([c] + tail)[1..] == tail;
      assert Split([c] + tail, c) == [""] + parts[1..];
      assert parts[0] + "" == parts[0];
      assert parts == [parts[0]] + parts[1..];
    }
  }

  // ---------------------------------------------------------------------
  // Substrings.

  /** The middle of a three-way concatenation is a substring of it. */
  lemma InfixIsSubstring(a: string, t: string, b: string)
    ensures IsSubstring(t, a + t + b)
  {
    assert (a + t + b)[|a|..|a| + |t|] == t;
    assert OccursAt(t, a + t + b, |a|);
  }

  /** Being a substring is transitive. */
  lemma SubstringTransitive(t: string, u: string, s: string)
    requires IsSubstring(t, u) && IsSubstring(u, s)
    ensures IsSubstring(t, s)
  {
    var i :| 0 <= i <= |u| && OccursAt(t, u, i);
    var j :| 0 <= j <= |s| && OccursAt(u, s, j);
    assert 0 <= i && i + |t| <= |u|;
    assert 0 <= j && j + |u| <= |s|;
    forall k | 0 <= k < |t|
      ensures s[j + i..j + i + |t|][k] == t[k]
    {
      assert t[k] == u[i + k];
      assert u[i + k] == s[j + i + k];
    }
    assert s[j + i..j + i + |t|] == t;
    assert OccursAt(t, s, j + i);
  }

  /** Every part of a joined string occurs in it. */
  lemma {:induction false} PartOfJoin(sep: string, parts: seq<string>, i: nat)
    requires i < |parts|
    ensures IsSubstring(parts[i], Join(sep, parts))
    decreases i
  {
    if |parts| == 1 {
      InfixIsSubstring("", parts[0], "");
      assert "" + parts[0] + "" == parts[0];
    } else if i == 0 {
      InfixIsSubstring("", parts[0], sep + Join(sep, parts[1..]));
      assert "" + parts[0] + (sep + Join(sep, parts[1..])) == Join(sep, parts);
    } else {
      PartOfJoin(sep, parts[1..], i - 1);
      InfixIsSubstring(parts[0] + sep, Join(sep, parts[1..]), "");
      assert parts[0] + sep + Join(sep, parts[1..]) + "" == Join(sep, parts);
      SubstringTransitive(parts[i], Join(sep, parts[1..]), Join(sep, parts));
    }
  }

  // ---------------------------------------------------------------------
  // Decimal rendering of integers, as Python's `str(n)` / f-string `{n}`.

  predicate IsDigit(ch: char)
  {
    '0' <= ch <= '9'
  }

  predicate AllDigits(s: string)
  {
    forall i :: 0 <= i < |s| ==> IsDigit(s[i])
  }

  function DigitChar(d: nat): (ch: char)
    requires d < 10
    ensures IsDigit(ch) && ch as int - '0' as int == d
  {
    ('0' as int + d) as char
  }

  /** The number a string of decimal digits denotes (most significant first). */
  function DecimalValue(s: string): nat
    requires AllDigits(s)
  {
    if |s| == 0 then 0
    else DecimalValue(s[..|s| - 1]) * 10 + (s[|s| - 1] as int - '0' as int)
  }

  /** The decimal digits of `n`, without leading zeros: reading them back
      gives `n`. */
  function NatToString(n: nat): (r: string)
    ensures |r| >= 1 && AllDigits(r)
    ensures DecimalValue(r) == n
    ensures r[0] == '0' ==> n == 0
    ensures |r| > 1 ==> r[0] != '0'
  {
    if n < 10 then [DigitChar(n)]
    else
      var high := NatToString(n / 10);
      var r := high + [DigitChar(n % 10)];
      assert r[..|r| - 1] == high;
      r
  }

  /** `str(i)` for any Python int: a minus sign for negative numbers, then
      the digits of the magnitude. */
  function IntToString(i: int): (r: string)
    ensures |r| >= 1
    ensures r[0] == '-' <==> i < 0
    ensures i >= 0 ==> AllDigits(r) && DecimalValue(r) == i
    ensures i < 0 ==> AllDigits(r[1..]) && DecimalValue(r[1..]) == -i
    ensures i >= 0 && |r| > 1 ==> r[0] != '0'
    ensures i < 0 ==> |r| >= 2 && r[1] != '0'
    ensures '\n' !in r && ' ' !in r
  {
    if i < 0 then
      var r := "-" + NatToString(-i);
      assert r[1..] == NatToString(-i);
      r
    else NatToString(i)
  }

  /** A digit string without a leading zero is the rendering of the number it
      denotes: `NatToString` is the only such spelling. */
  lemma {:induction false} CanonicalDecimal(s: string)
    requires |s| >= 1 && AllDigits(s)
    requires |s| > 1 ==> s[0] != '0'
    ensures s == NatToString(DecimalValue(s))
  {
    var n := DecimalValue(s);
    var d := s[|s| - 1] as int - '0' as int;
    if |s| == 1 {
      assert s[..0] == "";
      assert n == DecimalValue(s[..0]) * 10 + d;
      assert IsDigit(s[0]) && n == d;
      assert DigitChar(n) == s[0];
    } else {
      var high := s[..|s| - 1];
      assert AllDigits(high);
      CanonicalDecimal(high);
      assert high[0] == s[0];
      var h := DecimalValue(high);
      assert h >= 1;
      assert n == h * 10 + d && 0 <= d < 10;
      assert n / 10 == h && n % 10 == d;
      assert s == high + [s[|s| - 1]];
    }
  }
}
