/**
 * The small part of Python's `str` API that the review pipeline relies on:
 * `split('\n')`, `'\n'.join`, `strip`, `lower`, `upper`, `title`, `startswith`,
 * `endswith`, `in`, slicing and `str(int)`.  Characters outside ASCII are
 * passed through unchanged by the case functions, and only ASCII digits count
 * as digits.
 */
module Text {

  /**
   * The characters Python's `str.isspace()` accepts, which are the ones `str.strip()`
   * removes and `\s` matches: tab to carriage return, the four separators U+001C to
   * U+001F, space, U+0085, U+00A0, U+1680, U+2000 to U+200A, U+2028, U+2029, U+202F,
   * U+205F and U+3000.
   */
  predicate IsSpace(c: char)
  {
    '\t' <= c <= '\r' || '\U{1C}' <= c <= ' ' || c == '\U{85}' || c == '\U{A0}' || c == '\U{1680}'
    || '\U{2000}' <= c <= '\U{200A}' || c == '\U{2028}' || c == '\U{2029}' || c == '\U{202F}'
    || c == '\U{205F}' || c == '\U{3000}'
  }

  predicate IsDigit(c: char)
  {
    '0' <= c <= '9'
  }

  predicate IsUpper(c: char)
  {
    'A' <= c <= 'Z'
  }

  predicate IsLower(c: char)
  {
    'a' <= c <= 'z'
  }

  function LowerChar(c: char): char
  {
    if IsUpper(c) then (c as int + 32) as char else c
  }

  function UpperChar(c: char): char
  {
    if IsLower(c) then (c as int - 32) as char else c
  }

  /** `s.lower()` */
  function Lower(s: string): string
  {
    seq(|s|, i requires 0 <= i < |s| => LowerChar(s[i]))
  }

  /** `s.upper()` */
  function Upper(s: string): string
  {
    seq(|s|, i requires 0 <= i < |s| => UpperChar(s[i]))
  }

  /** `s.startswith(t)` */
  predicate StartsWith(s: string, t: string)
  {
    |t| <= |s| && s[..|t|] == t
  }

  /** `s.endswith(t)` */
  predicate EndsWith(s: string, t: string)
  {
    |t| <= |s| && s[|s| - |t|..] == t
  }

  /** `t` occurs in `s` starting at index `i`. */
  predicate OccursAt(s: string, t: string, i: int)
  {
    0 <= i <= |s| - |t| && s[i..i + |t|] == t
  }

  /** `t in s` */
  predicate Contains(s: string, t: string)
  {
    exists i | 0 <= i <= |s| - |t| :: OccursAt(s, t, i)
  }

  /** `s[:n]` for a non-negative `n` */
  function Take(s: string, n: nat): (r: string)
    ensures |r| <= n && StartsWith(s, r)
    ensures |s| <= n ==> r == s
    ensures |s| > n ==> |r| == n
  {
    if |s| <= n then s else s[..n]
  }

  /** The index of the first non-whitespace character at or after `i`. */
  function SpacesFrom(s: string, i: nat): (j: nat)
    requires i <= |s|
    ensures i <= j <= |s|
    ensures j == |s| || !IsSpace(s[j])
    decreases |s| - i
  {
    if i < |s| && IsSpace(s[i]) then SpacesFrom(s, i + 1) else i
  }

  lemma {:induction false} SpacesFromSkipsSpace(s: string, i: nat)
    requires i <= |s|
    ensures forall m :: i <= m < SpacesFrom(s, i) ==> IsSpace(s[m])
    decreases |s| - i
  {
    if i < |s| && IsSpace(s[i]) {
      SpacesFromSkipsSpace(s, i + 1);
    }
  }

  /** `s.lstrip()` */
  function TrimStart(s: string): (r: string)
    ensures |r| <= |s| && r == s[|s| - |r|..]
    ensures r == [] || !IsSpace(r[0])
  {
    s[SpacesFrom(s, 0)..]
  }

  /** `lstrip` removes whitespace only. */
  lemma TrimStartRemovesSpace(s: string)
    ensures forall i :: 0 <= i < |s| - |TrimStart(s)| ==> IsSpace(s[i])
  {
    SpacesFromSkipsSpace(s, 0);
  }

  /** Whitespace in front of a text that starts with a non-space character is what `lstrip` removes. */
  lemma TrimStartSpaceThen(t: string)
    requires t != [] && !IsSpace(t[0])
    ensures TrimStart(" " + t) == t
  {
    assert (" " + t)[1] == t[0];
    assert SpacesFrom(" " + t, 0) == 1;
    assert (" " + t)[1..] == t;
  }

  /** The index just past the last non-whitespace character before `j`. */
  function SpacesBefore(s: string, j: nat): (i: nat)
    requires j <= |s|
    ensures i <= j
    ensures i == 0 || !IsSpace(s[i - 1])
  {
    if j > 0 && IsSpace(s[j - 1]) then SpacesBefore(s, j - 1) else j
  }

  lemma {:induction false} SpacesBeforeSkipsSpace(s: string, j: nat)
    requires j <= |s|
    ensures forall m :: SpacesBefore(s, j) <= m < j ==> IsSpace(s[m])
  {
    if j > 0 && IsSpace(s[j - 1]) {
      SpacesBeforeSkipsSpace(s, j - 1);
    }
  }

  /** `s.rstrip()` */
  function TrimEnd(s: string): (r: string)
    ensures |r| <= |s| && r == s[..|r|]
    ensures r == [] || !IsSpace(r[|r| - 1])
  {
    s[..SpacesBefore(s, |s|)]
  }

  /** `rstrip` removes whitespace only. */
  lemma TrimEndRemovesSpace(s: string)
    ensures forall i :: |TrimEnd(s)| <= i < |s| ==> IsSpace(s[i])
  {
    SpacesBeforeSkipsSpace(s, |s|);
  }

  /** `s.strip()` */
  function Strip(s: string): string
  {
    TrimEnd(TrimStart(s))
  }

  /** `s.split(sep)` for a one-character separator. */
  function Split(s: string, sep: char): (parts: seq<string>)
    ensures |parts| >= 1
  {
    if |s| == 0 then [""]
    else
      var rest := Split(s[1..], sep);
      if s[0] == sep then [""] + rest
      else [[s[0]] + rest[0]] + rest[1..]
  }

  /** No part of a split contains the separator. */
  lemma {:induction false} SplitPartsFree(s: string, sep: char)
    ensures forall k :: 0 <= k < |Split(s, sep)| ==> sep !in Split(s, sep)[k]
  {
    if |s| > 0 {
      SplitPartsFree(s[1..], sep);
    }
  }

  /** `sep.join(parts)` */
  function Join(parts: seq<string>, sep: string): string
  {
    if |parts| == 0 then ""
    else if |parts| == 1 then parts[0]
    else parts[0] + sep + Join(parts[1..], sep)
  }

  lemma JoinPrepend(c: string, parts: seq<string>, sep: string)
    requires |parts| >= 1
    ensures Join([c + parts[0]] + parts[1..], sep) == c + Join(parts, sep)
  {
    var p := [c + parts[0]] + parts[1..];
    assert p[1..] == parts[1..];
  }

  /** Splitting and joining on the same separator gives the text back. */
  lemma {:induction false} JoinSplit(s: string, sep: char)
    ensures Join(Split(s, sep), [sep]) == s
  {
    if |s| > 0 {
      var rest := Split(s[1..], sep);
      JoinSplit(s[1..], sep);
      if s[0] == sep {
        assert ([""] + rest)[1..] == rest;
      } else {
        JoinPrepend([s[0]], rest, [sep]);
        assert [s[0]] + s[1..] == s;
      }
    }
  }

  /** A non-empty list of separator-free parts survives joining and splitting again. */
  lemma {:induction false} SplitJoin(parts: seq<string>, sep: char)
    requires |parts| >= 1
    requires forall k :: 0 <= k < |parts| ==> sep !in parts[k]
    ensures Split(Join(parts, [sep]), sep) == parts
  {
    if |parts| == 1 {
      SplitFree(parts[0], sep);
    } else {
      SplitJoin(parts[1..], sep);
      SplitPrefix(parts[0], Join(parts[1..], [sep]), sep);
      assert [parts[0]] + parts[1..] == parts;
    }
  }

  /** A text with no separator splits into itself. */
  lemma {:induction false} SplitFree(s: string, sep: char)
    requires sep !in s
    ensures Split(s, sep) == [s]
  {
    if |s| > 0 {
      SplitFree(s[1..], sep);
      assert [s[0]] + s[1..] == s;
    }
  }

  /** A separator-free head followed by a separator ends the first part. */
  lemma {:induction false} SplitPrefix(a: string, b: string, sep: char)
    requires sep !in a
    ensures Split(a + [sep] + b, sep) == [a] + Split(b, sep)
  {
    if |a| == 0 {
      assert a + [sep] + b == [sep] + b;
      assert ([sep] + b)[1..] == b;
    } else {
      SplitPrefix(a[1..], b, sep);
      assert (a + [sep] + b)[1..] == a[1..] + [sep] + b;
      assert [a[0]] + a[1..] == a;
    }
  }

  function DigitChar(d: nat): (c: char)
    requires d < 10
    ensures IsDigit(c) && c as int - '0' as int == d
  {
    ('0' as int + d) as char
  }

  predicate AllDigits(s: string)
  {
    forall i :: 0 <= i < |s| ==> IsDigit(s[i])
  }

  /** The number a run of decimal digits denotes, most significant digit first. */
  function DigitsValue(s: string): nat
    requires AllDigits(s)
  {
    if s == [] then 0 else 10 * DigitsValue(s[..|s| - 1]) + (s[|s| - 1] as int - '0' as int)
  }

  /** `str(n)` of a natural number */
  function NatToString(n: nat): (r: string)
    ensures |r| >= 1 && AllDigits(r)
  {
    if n < 10 then [DigitChar(n)] else NatToString(n / 10) + [DigitChar(n % 10)]
  }

  /** `str(n)` */
  function IntToString(n: int): string
  {
    if n < 0 then "-" + NatToString(-n) else NatToString(n)
  }

  /** The digits of `str(n)` denote `n`. */
  lemma {:induction false} NatToStringValue(n: nat)
    ensures DigitsValue(NatToString(n)) == n
  {
    if n >= 10 {
      NatToStringValue(n / 10);
      var r := NatToString(n);
      assert r[..|r| - 1] == NatToString(n / 10);
    }
  }

  /** `str(n)` of an integer is its magnitude's digits, after a minus sign exactly when `n` is negative. */
  lemma IntToStringValue(n: int)
    ensures var r := IntToString(n);
            (n >= 0 ==> AllDigits(r) && r != [] && DigitsValue(r) == n)
            && (n < 0 ==> |r| >= 2 && r[0] == '-' && AllDigits(r[1..]) && DigitsValue(r[1..]) == -n)
  {
    if n < 0 {
      NatToStringValue(-n);
      assert IntToString(n)[1..] == NatToString(-n);
    } else {
      NatToStringValue(n);
    }
  }

  predicate IsAsciiLetter(c: char)
  {
    IsUpper(c) || IsLower(c)
  }

  /** `s.title()`: a letter after a letter is lower-cased, any other letter upper-cased. */
  function TitleCase(s: string): string
  {
    TitleFrom(s, false)
  }

  function TitleFrom(s: string, afterLetter: bool): (r: string)
    ensures |r| == |s|
  {
    if s == [] then []
    else if IsAsciiLetter(s[0]) then
      [if afterLetter then LowerChar(s[0]) else UpperChar(s[0])] + TitleFrom(s[1..], true)
    else [s[0]] + TitleFrom(s[1..], false)
  }

  /** Lower-casing keeps every occurrence, lower-cased. */
  lemma ContainsLower(s: string, t: string)
    requires Contains(s, t)
    ensures Contains(Lower(s), Lower(t))
  {
    var i: int :| OccursAt(s, t, i);
    assert OccursAt(s, t, i);
    assert Lower(s)[i..i + |t|] == Lower(t);
    assert OccursAt(Lower(s), Lower(t), i);
  }

  /** An occurrence inside an occurrence is an occurrence. */
  lemma ContainsTransitive(s: string, t: string, u: string)
    requires Contains(s, t) && Contains(t, u)
    ensures Contains(s, u)
  {
    var i: int :| OccursAt(s, t, i);
    assert OccursAt(s, t, i);
    var j: int :| OccursAt(t, u, j);
    assert OccursAt(t, u, j);
    forall k | 0 <= k < |u| ensures s[i + j + k] == u[k] {
      assert u[k] == t[j + k] == s[i..i + |t|][j + k];
    }
    assert s[i + j..i + j + |u|] == u;
    assert OccursAt(s, u, i + j);
  }

  lemma AppendAssoc<T>(a: seq<T>, b: seq<T>, c: seq<T>)
    ensures a + (b + c) == (a + b) + c
  {
  }

  lemma AppendEmpties<T>(a: seq<T>, b: seq<T>)
    ensures [] + a + b + [] == a + b
  {
  }

  /** The lines that start with `p`, in their order. */
  function WithPrefix(lines: seq<string>, p: string): seq<string>
  {
    if lines == [] then []
    else
      var last := lines[|lines| - 1];
      WithPrefix(lines[..|lines| - 1], p) + (if StartsWith(last, p) then [last] else [])
  }

  lemma {:induction false} WithPrefixAppend(a: seq<string>, b: seq<string>, p: string)
    ensures WithPrefix(a + b, p) == WithPrefix(a, p) + WithPrefix(b, p)
    decreases |b|
  {
    if b == [] {
      assert a + b == a;
    } else {
      assert (a + b)[..|a + b| - 1] == a + b[..|b| - 1];
      WithPrefixAppend(a, b[..|b| - 1], p);
    }
  }

  /** A line that differs from `p` at some index of both does not start with `p`. */
  lemma DiffersAt(l: string, p: string, i: nat)
    requires i < |l| && i < |p| && l[i] != p[i]
    ensures !StartsWith(l, p)
  {
    if |p| <= |l| {
      assert l[..|p|][i] == l[i];
    }
  }

  /** `l` ends before index `i` of `p`, or differs from `p` there. */
  predicate Avoids(l: string, p: string, i: nat)
  {
    i < |p| && (|l| <= i || l[i] != p[i])
  }

  lemma AvoidsNotStart(l: string, p: string, i: nat)
    requires Avoids(l, p, i)
    ensures !StartsWith(l, p)
  {
    if i < |l| {
      DiffersAt(l, p, i);
    }
  }

  /** No line of a list starts with `p` when none of its members does. */
  lemma {:induction false} NoneWithPrefix(lines: seq<string>, p: string)
    requires forall k :: 0 <= k < |lines| ==> !StartsWith(lines[k], p)
    ensures WithPrefix(lines, p) == []
  {
    if lines != [] {
      NoneWithPrefix(lines[..|lines| - 1], p);
    }
  }

  /** No line of a four-line list starts with `p` when the first three avoid it at `i` and the last at `j`. */
  lemma {:induction false} NoneOfFour(a: string, b: string, c: string, d: string, p: string, i: nat, j: nat)
    requires Avoids(a, p, i) && Avoids(b, p, i) && Avoids(c, p, i) && Avoids(d, p, j)
    ensures WithPrefix([a, b, c, d], p) == []
  {
    AvoidsNotStart(a, p, i);
    AvoidsNotStart(b, p, i);
    AvoidsNotStart(c, p, i);
    AvoidsNotStart(d, p, j);
    NoneWithPrefix([a, b, c, d], p);
  }

  /** No line of a seven-line list starts with `p` when each avoids it at `i`. */
  lemma {:induction false} NoneOfSeven(a: string, b: string, c: string, d: string, e: string, f: string, g: string, p: string, i: nat)
    requires Avoids(a, p, i) && Avoids(b, p, i) && Avoids(c, p, i) && Avoids(d, p, i)
    requires Avoids(e, p, i) && Avoids(f, p, i) && Avoids(g, p, i)
    ensures WithPrefix([a, b, c, d, e, f, g], p) == []
  {
    AvoidsNotStart(a, p, i);
    AvoidsNotStart(b, p, i);
    AvoidsNotStart(c, p, i);
    AvoidsNotStart(d, p, i);
    AvoidsNotStart(e, p, i);
    AvoidsNotStart(f, p, i);
    AvoidsNotStart(g, p, i);
    NoneWithPrefix([a, b, c, d, e, f, g], p);
  }

  /** Lines with a prefix, counted over four consecutive parts of a text. */
  lemma {:induction false} WithPrefixFour(a: seq<string>, b: seq<string>, c: seq<string>, d: seq<string>, p: string)
    ensures WithPrefix(a + b + c + d, p) == WithPrefix(a, p) + WithPrefix(b, p) + WithPrefix(c, p) + WithPrefix(d, p)
  {
    WithPrefixAppend(a, b, p);
    WithPrefixAppend(a + b, c, p);
    WithPrefixAppend(a + b + c, d, p);
  }

  /** No line of a one-line list starts with `p` when that line avoids it at `i`. */
  lemma {:induction false} NoneOfOne(a: string, p: string, i: nat)
    requires Avoids(a, p, i)
    ensures WithPrefix([a], p) == []
  {
    AvoidsNotStart(a, p, i);
    NoneWithPrefix([a], p);
  }
}
