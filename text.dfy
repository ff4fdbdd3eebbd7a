/** Python's string built-ins that the modelled code relies on, restricted to
    ASCII: `str.strip`, `rstrip`, `split`, `join`, `replace`, `lower`, `upper`,
    `isalnum`, `startswith`, the `in` substring test and `str(int)`. */
module Text {

  /** The ASCII characters Python's `str.isspace` accepts (and `strip` removes). */
  predicate IsSpace(c: char) {
    c == ' ' || 9 <= c as int <= 13 || 28 <= c as int <= 31
  }

  predicate IsBlank(s: string) {
    forall i :: 0 <= i < |s| ==> IsSpace(s[i])
  }

  predicate IsAlnum(c: char) {
    'a' <= c <= 'z' || 'A' <= c <= 'Z' || '0' <= c <= '9'
  }

  /** Python's `s.isalnum()`: non-empty and every character alphanumeric. */
  predicate IsAlnumString(s: string) {
    |s| > 0 && forall i :: 0 <= i < |s| ==> IsAlnum(s[i])
  }

  predicate IsDigit(c: char) {
    '0' <= c <= '9'
  }

  function TrimStart(s: string): (r: string)
    ensures |r| <= |s| && r == s[|s| - |r|..]
    ensures r == [] || !IsSpace(r[0])
    ensures forall i :: 0 <= i < |s| - |r| ==> IsSpace(s[i])
  {
    if s != [] && IsSpace(s[0]) then TrimStart(s[1..]) else s
  }

  function TrimEnd(s: string): (r: string)
    ensures |r| <= |s| && r == s[..|r|]
    ensures r == [] || !IsSpace(r[|r| - 1])
    ensures forall i :: |r| <= i < |s| ==> IsSpace(s[i])
  {
    if s != [] && IsSpace(s[|s| - 1]) then TrimEnd(s[..|s| - 1]) else s
  }

  /** `s[a..b]` is what remains once only whitespace is cut from either end. */
  predicate SpaceAround(s: string, a: int, b: int) {
    && 0 <= a <= b <= |s|
    && (forall i :: 0 <= i < a ==> IsSpace(s[i]))
    && (forall i :: b <= i < |s| ==> IsSpace(s[i]))
  }

  /** Python's `s.strip()`. */
  function Strip(s: string): (r: string)
    ensures r == [] <==> IsBlank(s)
    ensures r != [] ==> !IsSpace(r[0]) && !IsSpace(r[|r| - 1])
    ensures |r| <= |s|
  {
    var t := TrimStart(s);
    var r := TrimEnd(t);
    assert r == [] ==> IsBlank(s) by {
      if r == [] {
        assert t == [];
      }
    }
    r
  }

  /** What `strip` removes is whitespace at either end, and nothing else. */
  lemma StripMeaning(s: string)
    ensures exists a, b :: SpaceAround(s, a, b) && Strip(s) == s[a..b]
  {
    var t := TrimStart(s);
    var r := TrimEnd(t);
    var a := |s| - |t|;
    assert r == s[a..a + |r|] by {
      assert t == s[a..];
      assert r == t[..|r|];
    }
    assert SpaceAround(s, a, a + |r|) by {
      forall i | a + |r| <= i < |s| ensures IsSpace(s[i]) {
        assert s[i] == t[i - a];
      }
    }
  }

  lemma {:induction false} TrimStartFixed(s: string)
    requires s == [] || !IsSpace(s[0])
    ensures TrimStart(s) == s
  {
  }

  lemma {:induction false} TrimEndFixed(s: string)
    requires s == [] || !IsSpace(s[|s| - 1])
    ensures TrimEnd(s) == s
  {
  }

  /** Stripping twice is the same as stripping once. */
  lemma StripIdempotent(s: string)
    ensures Strip(Strip(s)) == Strip(s)
  {
    var r := Strip(s);
    TrimStartFixed(r);
    TrimEndFixed(r);
  }

  /** Python's `s.rstrip(c)` for a single character `c`. */
  function RStripChar(s: string, c: char): (r: string)
    ensures |r| <= |s| && r == s[..|r|]
    ensures r == [] || r[|r| - 1] != c
    ensures forall i :: |r| <= i < |s| ==> s[i] == c
  {
    if s != [] && s[|s| - 1] == c then RStripChar(s[..|s| - 1], c) else s
  }

  /** `s[a..b]` is what remains once only characters of `cs` are cut from
      either end. */
  predicate InAround(s: string, a: int, b: int, cs: set<char>) {
    && 0 <= a <= b <= |s|
    && (forall i :: 0 <= i < a ==> s[i] in cs)
    && (forall i :: b <= i < |s| ==> s[i] in cs)
  }

  lemma InAroundTail(s: string, t: string, r: string, cs: set<char>)
    requires s != [] && s[0] in cs && t == s[1..]
    requires exists a, b :: InAround(t, a, b, cs) && r == t[a..b]
    ensures exists a, b :: InAround(s, a, b, cs) && r == s[a..b]
  {
    var a, b :| InAround(t, a, b, cs) && r == t[a..b];
    assert r == s[a + 1..b + 1];
    forall i | 0 <= i < |s| && (i < a + 1 || b + 1 <= i) ensures s[i] in cs {
      if i > 0 {
        assert s[i] == s[1..][i - 1];
      }
    }
    assert InAround(s, a + 1, b + 1, cs);
  }

  lemma InAroundInit(s: string, t: string, r: string, cs: set<char>)
    requires s != [] && s[|s| - 1] in cs && t == s[..|s| - 1]
    requires exists a, b :: InAround(t, a, b, cs) && r == t[a..b]
    ensures exists a, b :: InAround(s, a, b, cs) && r == s[a..b]
  {
    var a, b :| InAround(t, a, b, cs) && r == t[a..b];
    assert r == s[a..b];
    forall i | 0 <= i < |s| && (i < a || b <= i) ensures s[i] in cs {
      if i < |s| - 1 {
        assert s[i] == s[..|s| - 1][i];
      }
    }
    assert InAround(s, a, b, cs);
  }

  /** Python's `s.strip(chars)`: the input with the characters of `cs`
      removed from both ends, and nothing else. */
  function StripChars(s: string, cs: set<char>): (r: string)
    ensures |r| <= |s|
    ensures r != [] ==> r[0] !in cs && r[|r| - 1] !in cs
    ensures exists a, b :: InAround(s, a, b, cs) && r == s[a..b]
    decreases |s|
  {
    if s != [] && s[0] in cs then
      var r := StripChars(s[1..], cs);
      InAroundTail(s, s[1..], r, cs);
      r
    else if s != [] && s[|s| - 1] in cs then
      var r := StripChars(s[..|s| - 1], cs);
      InAroundInit(s, s[..|s| - 1], r, cs);
      r
    else
      assert InAround(s, 0, |s|, cs) && s == s[0..|s|];
      s
  }

  function LowerChar(c: char): char {
    if 'A' <= c <= 'Z' then (c as int + 32) as char else c
  }

  function UpperChar(c: char): char {
    if 'a' <= c <= 'z' then (c as int - 32) as char else c
  }

  /** Python's `s.lower()` on ASCII letters. */
  function Lower(s: string): (r: string)
    ensures |r| == |s|
    ensures forall i :: 0 <= i < |s| ==> r[i] == LowerChar(s[i])
  {
    if s == [] then [] else [LowerChar(s[0])] + Lower(s[1..])
  }

  /** Python's `s.upper()` on ASCII letters. */
  function Upper(s: string): (r: string)
    ensures |r| == |s|
    ensures forall i :: 0 <= i < |s| ==> r[i] == UpperChar(s[i])
  {
    if s == [] then [] else [UpperChar(s[0])] + Upper(s[1..])
  }

  predicate StartsWith(s: string, p: string) {
    |p| <= |s| && s[..|p|] == p
  }

  /** Python's `p in s` for strings. */
  predicate Contains(s: string, p: string)
    decreases |s|
  {
    StartsWith(s, p) || (s != [] && Contains(s[1..], p))
  }

  /** A character occurs in `s` exactly when the one-character string does. */
  lemma {:induction false} ContainsChar(s: string, c: char)
    ensures Contains(s, [c]) <==> c in s
  {
    if s != [] {
      ContainsChar(s[1..], c);
      assert c in s <==> s[0] == c || c in s[1..];
    }
  }

  /** Python's `s.replace(p, q)`: non-overlapping occurrences, left to right. */
  function ReplaceAll(s: string, p: string, q: string): string
    requires p != []
    decreases |s|
  {
    if s == [] then []
    else if StartsWith(s, p) then q + ReplaceAll(s[|p|..], p, q)
    else [s[0]] + ReplaceAll(s[1..], p, q)
  }

  /** Deleting a single character keeps every other character, in order. */
  lemma {:induction false} DeleteChar(s: string, c: char)
    ensures ReplaceAll(s, [c], "") == Without(s, c)
  {
    if s != [] {
      DeleteChar(s[1..], c);
    }
  }

  function Without(s: string, c: char): (r: string)
    ensures c !in r
    ensures forall x :: x in r <==> x in s && x != c
  {
    if s == [] then [] else (if s[0] == c then [] else [s[0]]) + Without(s[1..], c)
  }

  /** Python's `s.split(sep)` for a one-character separator. */
  function Split(s: string, sep: char): (r: seq<string>)
    ensures |r| >= 1
    ensures forall i :: 0 <= i < |r| ==> sep !in r[i]
  {
    if s == [] then [""]
    else
      var rest := Split(s[1..], sep);
      if s[0] == sep then [""] + rest else [[s[0]] + rest[0]] + rest[1..]
  }

  /** Python's `s.split(sep, 1)` when `sep` occurs: the text before the
      first separator and the text after it. */
  function SplitOnce(s: string, sep: char): (r: (string, string))
    requires sep in s
    ensures s == r.0 + [sep] + r.1 && sep !in r.0
  {
    if s[0] == sep then ([], s[1..])
    else
      var rest := SplitOnce(s[1..], sep);
      ([s[0]] + rest.0, rest.1)
  }

  /** The split is determined: a text without the separator, followed by it. */
  lemma {:induction false} SplitOnceUnique(a: string, sep: char, b: string)
    requires sep !in a
    ensures SplitOnce(a + [sep] + b, sep) == (a, b)
  {
    if a != [] {
      assert (a + [sep] + b)[1..] == a[1..] + [sep] + b;
      SplitOnceUnique(a[1..], sep, b);
      assert [a[0]] + a[1..] == a;
    } else {
      assert a + [sep] + b == [sep] + b;
    }
  }

  /** Python's `sep.join(xs)`. */
  function Join(sep: string, xs: seq<string>): string
  {
    if |xs| == 0 then ""
    else if |xs| == 1 then xs[0]
    else xs[0] + sep + Join(sep, xs[1..])
  }

  lemma JoinCons(sep: string, x: string, xs: seq<string>)
    requires |xs| >= 1
    ensures Join(sep, [x] + xs) == x + sep + Join(sep, xs)
  {
    assert ([x] + xs)[1..] == xs;
  }

  /** Joining the pieces of a split restores the original string. */
  lemma {:induction false} JoinSplit(s: string, sep: char)
    ensures Join([sep], Split(s, sep)) == s
  {
    if s != [] {
      var rest := Split(s[1..], sep);
      JoinSplit(s[1..], sep);
      if s[0] == sep {
        JoinCons([sep], "", rest);
      } else if |rest| == 1 {
      } else {
        JoinCons([sep], rest[0], rest[1..]);
        assert [rest[0]] + rest[1..] == rest;
        JoinCons([sep], [s[0]] + rest[0], rest[1..]);
      }
    }
  }

  /** Splitting a string with no separator in it yields that string alone. */
  lemma {:induction false} SplitNoSep(s: string, sep: char)
    requires sep !in s
    ensures Split(s, sep) == [s]
  {
    if s != [] {
      SplitNoSep(s[1..], sep);
      assert [s[0]] + s[1..] == s;
    }
  }

  lemma {:induction false} SplitAppend(a: string, sep: char, b: string)
    requires sep !in a
    ensures Split(a + [sep] + b, sep) == [a] + Split(b, sep)
  {
    if a == [] {
      assert a + [sep] + b == [sep] + b;
      assert ([sep] + b)[1..] == b;
    } else {
      assert (a + [sep] + b)[1..] == a[1..] + [sep] + b;
      SplitAppend(a[1..], sep, b);
      assert [a[0]] + a[1..] == a;
    }
  }

  /** Splitting a join restores the pieces, when no piece holds the separator. */
  lemma {:induction false} SplitJoin(xs: seq<string>, sep: char)
    requires |xs| >= 1
    requires forall i :: 0 <= i < |xs| ==> sep !in xs[i]
    ensures Split(Join([sep], xs), sep) == xs
  {
    if |xs| == 1 {
      SplitNoSep(xs[0], sep);
    } else {
      SplitJoin(xs[1..], sep);
      SplitAppend(xs[0], sep, Join([sep], xs[1..]));
      assert [xs[0]] + xs[1..] == xs;
    }
  }

  // ---- Python's ordering of strings and `sorted` on a set of them ----

  /** `a < b` on Python strings: lexicographic by code point. */
  predicate StrLess(a: string, b: string)
    decreases |a|
  {
    if a == [] then b != []
    else b != [] && (a[0] < b[0] || (a[0] == b[0] && StrLess(a[1..], b[1..])))
  }

  lemma {:induction false} StrLessIrreflexive(a: string)
    ensures !StrLess(a, a)
  {
    if a != [] {
      StrLessIrreflexive(a[1..]);
    }
  }

  lemma {:induction false} StrLessTransitive(a: string, b: string, c: string)
    requires StrLess(a, b) && StrLess(b, c)
    ensures StrLess(a, c)
  {
    if a != [] && a[0] == b[0] && b[0] == c[0] {
      StrLessTransitive(a[1..], b[1..], c[1..]);
    }
  }

  lemma {:induction false} StrLessTotal(a: string, b: string)
    requires a != b
    ensures StrLess(a, b) || StrLess(b, a)
  {
    if a != [] && b != [] && a[0] == b[0] {
      assert a == [a[0]] + a[1..] && b == [b[0]] + b[1..];
      StrLessTotal(a[1..], b[1..]);
    }
  }

  predicate IsLeast(m: string, s: set<string>) {
    m in s && forall x :: x in s && x != m ==> StrLess(m, x)
  }

  /** Every non-empty finite set of strings has a least element. */
  lemma LeastExists(s: set<string>)
    requires s != {}
    ensures exists m :: IsLeast(m, s)
    decreases |s|
  {
    var x :| x in s;
    if s != {x} {
      LeastExists(s - {x});
      var m :| IsLeast(m, s - {x});
      if StrLess(x, m) {
        forall y | y in s && y != x && y != m ensures StrLess(x, y) {
          StrLessTransitive(x, m, y);
        }
        assert IsLeast(x, s);
      } else {
        StrLessTotal(x, m);
        assert IsLeast(m, s);
      }
    } else {
      assert IsLeast(x, s);
    }
  }

  /** There is only one least element. */
  lemma LeastUnique(m: string, n: string, s: set<string>)
    requires IsLeast(m, s) && IsLeast(n, s)
    ensures m == n
  {
    if m != n {
      StrLessTransitive(m, n, m);
      StrLessIrreflexive(m);
    }
  }

  /** The least string of a non-empty set. */
  function MinString(s: set<string>): (m: string)
    requires s != {}
    ensures IsLeast(m, s)
  {
    LeastExists(s);
    assert forall m, n :: IsLeast(m, s) && IsLeast(n, s) ==> m == n by {
      forall m, n | IsLeast(m, s) && IsLeast(n, s) ensures m == n {
        LeastUnique(m, n, s);
      }
    }
    var m :| IsLeast(m, s);
    m
  }

  /** Python's `sorted(s)` for a set of strings: its elements in increasing order. */
  function SortStrings(s: set<string>): (r: seq<string>)
    ensures |r| == |s|
    ensures forall x :: x in r <==> x in s
    ensures forall i, j :: 0 <= i < j < |r| ==> StrLess(r[i], r[j])
    decreases |s|
  {
    if s == {} then []
    else
      var m := MinString(s);
      [m] + SortStrings(s - {m})
  }

  // ---- Python's str() of an integer, with its parse-back partner ----

  function DigitChar(d: nat): (c: char)
    requires d < 10
    ensures IsDigit(c)
  {
    "0123456789"[d]
  }

  function DigitValue(c: char): nat
    requires IsDigit(c)
  {
    c as int - '0' as int
  }

  /** Decimal digits of `n` without leading zeros. */
  function NatToString(n: nat): (r: string)
    ensures |r| >= 1
    ensures forall i :: 0 <= i < |r| ==> IsDigit(r[i])
    ensures r[0] == '0' ==> n == 0
  {
    if n < 10 then [DigitChar(n)] else NatToString(n / 10) + [DigitChar(n % 10)]
  }

  /** Python's `str(i)` for an integer. */
  function IntToString(i: int): (r: string)
  {
    if i < 0 then "-" + NatToString(-i) else NatToString(i)
  }

  function ParseDigits(s: string): nat
    requires forall i :: 0 <= i < |s| ==> IsDigit(s[i])
  {
    if s == [] then 0 else 10 * ParseDigits(s[..|s| - 1]) + DigitValue(s[|s| - 1])
  }

  /** Reads a decimal numeral back (Python's `int(s)` on its `str` output). */
  function ParseInt(s: string): int
    requires |s| >= 1
    requires s[0] == '-' ==> |s| >= 2
    requires forall i :: (if s[0] == '-' then 1 else 0) <= i < |s| ==> IsDigit(s[i])
  {
    if s[0] == '-' then -(ParseDigits(s[1..]) as int) else ParseDigits(s)
  }

  lemma {:induction false} ParseNatToString(n: nat)
    ensures ParseDigits(NatToString(n)) == n
  {
    if n >= 10 {
      ParseNatToString(n / 10);
      var r := NatToString(n);
      assert r[..|r| - 1] == NatToString(n / 10);
    } else {
      assert DigitValue(DigitChar(n)) == n;
    }
  }

  /** `str` on integers loses nothing: parsing its output gives the integer back. */
  lemma IntToStringRoundTrip(i: int)
    ensures var s := IntToString(i);
      |s| >= 1 && (s[0] == '-' ==> |s| >= 2) &&
      (forall k :: (if s[0] == '-' then 1 else 0) <= k < |s| ==> IsDigit(s[k])) &&
      ParseInt(s) == i
  {
    var s := IntToString(i);
    if i < 0 {
      ParseNatToString(-i);
      assert s[1..] == NatToString(-i);
    } else {
      ParseNatToString(i);
    }
  }

  /** Different integers have different `str` renderings. */
  lemma IntToStringInjective(i: int, j: int)
    requires IntToString(i) == IntToString(j)
    ensures i == j
  {
    IntToStringRoundTrip(i);
    IntToStringRoundTrip(j);
  }
}
