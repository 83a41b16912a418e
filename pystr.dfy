/**
 * The Python `str` built-ins the CLI relies on, stated over Dafny strings
 * (sequences of code points): `startswith`, `find`, `in`, `lower`/`upper`,
 * `replace`, `split`, `strip`, `str(int)`, `int(str)` and `sorted`.
 */
module PyStr {
  import opened Wrappers

  /** `s.startswith(p)` */
  predicate StartsWith(s: string, p: string) {
    |p| <= |s| && s[..|p|] == p
  }

  /** `sub` occurs in `s` at index `k`. */
  predicate OccursAt(s: string, sub: string, k: int) {
    0 <= k && k + |sub| <= |s| && s[k..k + |sub|] == sub
  }

  /** `s.find(sub, start)`: the least index at or after `start` where `sub` occurs, or -1. */
  function Find(s: string, sub: string, start: nat): (r: int)
    ensures r == -1 || (start <= r && OccursAt(s, sub, r))
    ensures forall k :: start <= k && (r == -1 || k < r) ==> !OccursAt(s, sub, k)
    decreases |s| - start
  {
    if start + |sub| > |s| then -1
    else if s[start..start + |sub|] == sub then start
    else Find(s, sub, start + 1)
  }

  /** `sub in s` */
  predicate Contains(s: string, sub: string) {
    Find(s, sub, 0) != -1
  }

  lemma ContainsIff(s: string, sub: string)
    ensures Contains(s, sub) <==> exists k :: OccursAt(s, sub, k)
  {
  }

  /** `s.find(sub, start)` is `m` when `sub` occurs at `m` and no character from `start` up to `m` starts `sub`. */
  lemma FindFirstAt(s: string, sub: string, start: nat, m: nat)
    requires sub != [] && start <= m && OccursAt(s, sub, m)
    requires forall k :: start <= k < m ==> s[k] != sub[0]
    ensures Find(s, sub, start) == m
  {
    forall k | start <= k < m ensures !OccursAt(s, sub, k) {
      assert k + |sub| <= |s| ==> s[k..k + |sub|][0] == s[k];
    }
  }

  /**
   * `sub` is not in `s` when its character at `j` occurs in `s` only at
   * `m` and `sub` does not occur at `m - j`.
   */
  lemma NotContainsByChar(s: string, sub: string, j: nat, m: nat)
    requires j < |sub| && j <= m
    requires forall i :: 0 <= i < |s| && i != m ==> s[i] != sub[j]
    requires !OccursAt(s, sub, m - j)
    ensures !Contains(s, sub)
  {
    forall k | OccursAt(s, sub, k) ensures k == m - j {
      assert s[k..k + |sub|][j] == s[k + j];
    }
  }

  // ---------------------------------------------------------------- case mapping

  function LowerChar(c: char): char {
    if 'A' <= c <= 'Z' then (c as int + 32) as char else c
  }

  function UpperChar(c: char): char {
    if 'a' <= c <= 'z' then (c as int - 32) as char else c
  }

  /** `s.lower()` on the ASCII letters. */
  function Lower(s: string): (r: string)
    ensures |r| == |s| && forall i :: 0 <= i < |s| ==> r[i] == LowerChar(s[i])
  {
    if s == [] then [] else [LowerChar(s[0])] + Lower(s[1..])
  }

  /** `s.upper()` on the ASCII letters. */
  function Upper(s: string): (r: string)
    ensures |r| == |s| && forall i :: 0 <= i < |s| ==> r[i] == UpperChar(s[i])
  {
    if s == [] then [] else [UpperChar(s[0])] + Upper(s[1..])
  }

  // ---------------------------------------------------------------- replace and split

  /** `s.replace(pat, '')`: removes the non-overlapping occurrences of `pat`, scanning left to right. */
  function RemoveAll(s: string, pat: string): (r: string)
    requires |pat| > 0
    ensures |r| <= |s|
    decreases |s|
  {
    if |s| < |pat| then s
    else if s[..|pat|] == pat then RemoveAll(s[|pat|..], pat)
    else [s[0]] + RemoveAll(s[1..], pat)
  }

  /** A string in which `pat` does not occur is left unchanged by `RemoveAll`. */
  lemma {:induction false} RemoveAllAbsent(s: string, pat: string)
    requires |pat| > 0
    requires !Contains(s, pat)
    ensures RemoveAll(s, pat) == s
    decreases |s|
  {
    if |s| >= |pat| {
      assert !OccursAt(s, pat, 0);
      assert !Contains(s[1..], pat) by {
        forall k | OccursAt(s[1..], pat, k) ensures false {
          assert s[1..][k..k + |pat|] == s[k + 1..k + 1 + |pat|];
          assert OccursAt(s, pat, k + 1);
        }
      }
      RemoveAllAbsent(s[1..], pat);
    }
  }

  /** A character that is not part of `pat` splits `RemoveAll` into independent halves. */
  lemma {:induction false} RemoveAllAround(a: string, c: char, b: string, pat: string)
    requires |pat| > 0 && c !in pat
    ensures RemoveAll(a + [c] + b, pat) == RemoveAll(a, pat) + [c] + RemoveAll(b, pat)
    decreases |a|
  {
    var s := a + [c] + b;
    if |s| < |pat| {
      assert RemoveAll(a, pat) == a && RemoveAll(b, pat) == b;
    } else if s[..|pat|] == pat {
      PatternInsideLeft(a, c, b, pat);
      assert s[|pat|..] == a[|pat|..] + [c] + b;
      RemoveAllAround(a[|pat|..], c, b, pat);
    } else if a == [] {
      assert s == [c] + b && s[1..] == b;
    } else {
      assert s[1..] == a[1..] + [c] + b;
      RemoveAllAround(a[1..], c, b, pat);
      RemoveAllHead(a, c, b, pat);
    }
  }

  lemma PatternInsideLeft(a: string, c: char, b: string, pat: string)
    requires |pat| > 0 && c !in pat
    requires |a + [c] + b| >= |pat| && (a + [c] + b)[..|pat|] == pat
    ensures |pat| <= |a| && a[..|pat|] == pat
  {
    var s := a + [c] + b;
    assert c !in s[..|pat|];
    assert s[|a|] == c;
    assert a[..|pat|] == s[..|pat|];
  }

  lemma RemoveAllHead(a: string, c: char, b: string, pat: string)
    requires |pat| > 0 && c !in pat && a != []
    requires |a + [c] + b| >= |pat| && (a + [c] + b)[..|pat|] != pat
    ensures RemoveAll(a, pat) == [a[0]] + RemoveAll(a[1..], pat)
  {
    if |a| >= |pat| {
      assert a[..|pat|] == (a + [c] + b)[..|pat|];
    } else {
      assert RemoveAll(a[1..], pat) == a[1..];
      assert a == [a[0]] + a[1..];
    }
  }

  /** `s.split(sep)` for a one-character separator: empty fields are kept. */
  function Split(s: string, sep: char): (r: seq<string>)
    ensures |r| >= 1
  {
    if s == [] then [""]
    else
      var rest := Split(s[1..], sep);
      if s[0] == sep then [""] + rest else [[s[0]] + rest[0]] + rest[1..]
  }

  lemma {:induction false} SplitAbsent(s: string, sep: char)
    requires sep !in s
    ensures Split(s, sep) == [s]
  {
    if s != [] {
      assert sep !in s[1..];
      SplitAbsent(s[1..], sep);
      assert s == [s[0]] + s[1..];
    }
  }

  /** Splitting at the first separator peels off the field before it. */
  lemma {:induction false} SplitFirst(a: string, sep: char, b: string)
    requires sep !in a
    ensures Split(a + [sep] + b, sep) == [a] + Split(b, sep)
    decreases |a|
  {
    if a == [] {
      assert a + [sep] + b == [sep] + b;
    } else {
      assert (a + [sep] + b)[1..] == a[1..] + [sep] + b;
      assert sep !in a[1..];
      SplitFirst(a[1..], sep, b);
      assert a == [a[0]] + a[1..];
    }
  }

  // ---------------------------------------------------------------- whitespace

  /** The characters Python's `str.strip()` and `str.split()` treat as whitespace. */
  predicate IsSpace(c: char) {
    var n := c as int;
    n == 0x20 || 0x09 <= n <= 0x0d || 0x1c <= n <= 0x1f || n == 0x85 || n == 0xa0 ||
    n == 0x1680 || 0x2000 <= n <= 0x200a || n == 0x2028 || n == 0x2029 ||
    n == 0x202f || n == 0x205f || n == 0x3000
  }

  function TrimLeft(s: string): (r: string)
    ensures |r| <= |s| && forall i :: 0 <= i < |r| ==> r[i] == s[|s| - |r| + i]
    ensures r == [] || !IsSpace(r[0])
    ensures forall i :: 0 <= i < |s| - |r| ==> IsSpace(s[i])
  {
    if s != [] && IsSpace(s[0]) then TrimLeft(s[1..]) else s
  }

  function TrimRight(s: string): (r: string)
    ensures |r| <= |s| && forall i :: 0 <= i < |r| ==> r[i] == s[i]
    ensures r == [] || !IsSpace(r[|r| - 1])
    ensures forall i :: |r| <= i < |s| ==> IsSpace(s[i])
  {
    if s != [] && IsSpace(s[|s| - 1]) then TrimRight(s[..|s| - 1]) else s
  }

  /** `s.strip()` */
  function Strip(s: string): (r: string)
    ensures r == [] || (!IsSpace(r[0]) && !IsSpace(r[|r| - 1]))
  {
    var l := TrimLeft(s);
    var r := TrimRight(l);
    assert r != [] ==> !IsSpace(r[0]) by {
      if r != [] { assert r[0] == l[0]; }
    }
    r
  }

  /** `s.strip()` is empty exactly when `s` is all whitespace. */
  lemma StripEmptyIff(s: string)
    ensures Strip(s) == [] <==> forall i :: 0 <= i < |s| ==> IsSpace(s[i])
  {
    var l := TrimLeft(s);
    if Strip(s) == [] {
      assert l == [];
    } else {
      assert l != [] && !IsSpace(l[0]) && s[|s| - |l|] == l[0];
    }
  }

  /**
   * `s.strip()` is `s` with its leading and trailing whitespace cut off: a
   * slice `s[i..j]` with only whitespace before `i` and from `j` on, whose
   * own ends are not whitespace (see `Strip`), so the margins are maximal.
   */
  lemma StripMargins(s: string)
    ensures exists i, j :: 0 <= i <= j <= |s| && Strip(s) == s[i..j]
                           && (forall k :: 0 <= k < i ==> IsSpace(s[k]))
                           && (forall k :: j <= k < |s| ==> IsSpace(s[k]))
  {
    var i := |s| - |TrimLeft(s)|;
    var j := i + |Strip(s)|;
    StripIsSlice(s);
    StripRightMargin(s);
    assert Strip(s) == s[i..j];
  }

  lemma StripIsSlice(s: string)
    ensures var i := |s| - |TrimLeft(s)|;
            i + |Strip(s)| <= |s| && Strip(s) == s[i..i + |Strip(s)|]
  {
    var l := TrimLeft(s);
    var r := TrimRight(l);
    var i := |s| - |l|;
    assert r == Strip(s);
    forall k | 0 <= k < |r| ensures r[k] == s[i..i + |r|][k] {
      assert r[k] == l[k] && l[k] == s[i + k];
    }
  }

  lemma StripRightMargin(s: string)
    ensures forall k :: |s| - |TrimLeft(s)| + |Strip(s)| <= k < |s| ==> IsSpace(s[k])
  {
    var l := TrimLeft(s);
    var r := TrimRight(l);
    var i := |s| - |l|;
    assert r == Strip(s);
    forall k | i + |r| <= k < |s| ensures IsSpace(s[k]) {
      assert |r| <= k - i < |l| && l[k - i] == s[k];
    }
  }

  /** A string with no whitespace at either end is its own `strip()`. */
  lemma StripUnpadded(s: string)
    requires s == [] || (!IsSpace(s[0]) && !IsSpace(s[|s| - 1]))
    ensures Strip(s) == s
  {
  }

  /** The leading run of non-whitespace characters of `t`. */
  function TakeToken(t: string): (r: string)
    ensures |r| <= |t| && (forall i :: 0 <= i < |r| ==> r[i] == t[i]) && forall c :: c in r ==> !IsSpace(c)
    ensures |r| < |t| ==> IsSpace(t[|r|])
  {
    if t == [] || IsSpace(t[0]) then [] else [t[0]] + TakeToken(t[1..])
  }

  /** `s.strip().split()[0]` for a string that is not all whitespace. */
  function FirstToken(s: string): (r: string)
    ensures forall c :: c in r ==> !IsSpace(c)
    ensures Strip(s) != [] ==> r != []
  {
    TakeToken(TrimLeft(s))
  }

  /** `s.strip(chars)`: strips any of `chars` from both ends. */
  function StripChars(s: string, chars: set<char>): (r: string)
    ensures |r| <= |s|
    ensures r == [] || (r[0] !in chars && r[|r| - 1] !in chars)
    decreases |s|
  {
    if s != [] && s[0] in chars then StripChars(s[1..], chars)
    else if s != [] && s[|s| - 1] in chars then StripChars(s[..|s| - 1], chars)
    else s
  }

  // ---------------------------------------------------------------- integers and decimal text

  predicate IsDigit(c: char) {
    '0' <= c <= '9'
  }

  function DigitChar(d: nat): (c: char)
    requires d < 10
    ensures IsDigit(c) && c as int - '0' as int == d
  {
    ('0' as int + d) as char
  }

  /** `str(n)` for a natural number. */
  function NatToString(n: nat): (r: string)
    ensures |r| >= 1 && forall c :: c in r ==> IsDigit(c)
  {
    if n < 10 then [DigitChar(n)] else NatToString(n / 10) + [DigitChar(n % 10)]
  }

  /** `str(i)`, the f-string rendering of an integer. */
  function IntToString(i: int): (r: string)
    ensures |r| >= 1 && (r[0] == '-' || IsDigit(r[0])) && IsDigit(r[|r| - 1])
  {
    if i < 0 then "-" + NatToString(-i) else NatToString(i)
  }

  /** The digit part that Python's `int()` accepts: digits, single underscores between digits. */
  predicate ValidDigits(d: string) {
    && |d| > 0 && d[0] != '_' && d[|d| - 1] != '_'
    && (forall i :: 0 <= i < |d| ==> IsDigit(d[i]) || d[i] == '_')
    && (forall i :: 0 <= i < |d| - 1 ==> d[i] == '_' ==> d[i + 1] != '_')
  }

  /** The value of a digit string, underscores ignored. */
  function DigitsValue(d: string): nat {
    if d == [] then 0
    else
      var last := d[|d| - 1];
      if IsDigit(last) then DigitsValue(d[..|d| - 1]) * 10 + (last as int - '0' as int)
      else DigitsValue(d[..|d| - 1])
  }

  /** `int(s)`: surrounding whitespace, an optional sign, then valid digits; `None` where Python raises `ValueError`. */
  function ParseInt(s: string): Option<int> {
    var t := Strip(s);
    if |t| > 0 && (t[0] == '+' || t[0] == '-') then
      var v: int := DigitsValue(t[1..]);
      if ValidDigits(t[1..]) then Some(if t[0] == '-' then -v else v)
      else None
    else if ValidDigits(t) then Some(DigitsValue(t))
    else None
  }

  lemma {:induction false} NatToStringValue(n: nat)
    ensures ValidDigits(NatToString(n)) && DigitsValue(NatToString(n)) == n
  {
    if n >= 10 {
      NatToStringValue(n / 10);
      var p := NatToString(n / 10);
      assert (p + [DigitChar(n % 10)])[..|p|] == p;
    }
  }

  /** `int(str(i)) == i`: rendering an integer and parsing it back is the identity. */
  lemma IntToStringRoundTrip(i: int)
    ensures ParseInt(IntToString(i)) == Some(i)
  {
    var d := NatToString(if i < 0 then -i else i);
    NatToStringValue(if i < 0 then -i else i);
    if i < 0 {
      var r := IntToString(i);
      assert r == ['-'] + d;
      assert r[1..] == d;
      NegativeParse(r, d);
    } else {
      DigitsParse(d);
    }
  }

  /** A valid digit string parses to its value. */
  lemma DigitsParse(d: string)
    requires ValidDigits(d)
    ensures ParseInt(d) == Some(DigitsValue(d))
  {
    assert IsDigit(d[0]) && IsDigit(d[|d| - 1]);
    StripUnpadded(d);
  }

  /** A minus sign followed by a valid digit string parses to the negated value. */
  lemma NegativeParse(r: string, d: string)
    requires |r| > 0 && r[0] == '-' && r[1..] == d && ValidDigits(d)
    ensures ParseInt(r) == Some(-(DigitsValue(d) as int))
  {
    SignedUnpadded(r, d);
  }

  lemma SignedUnpadded(r: string, d: string)
    requires |r| > 0 && r[0] == '-' && r[1..] == d && ValidDigits(d)
    ensures Strip(r) == r
  {
    assert r[|r| - 1] == d[|d| - 1] && IsDigit(d[|d| - 1]);
    StripUnpadded(r);
  }

  // ---------------------------------------------------------------- ordering and sorted()

  /** Python's `a <= b` on strings: lexicographic by code point. */
  predicate StrLe(a: string, b: string) {
    if a == [] then true
    else if b == [] then false
    else if a[0] != b[0] then a[0] < b[0]
    else StrLe(a[1..], b[1..])
  }

  lemma {:induction false} StrLeTotal(a: string, b: string)
    ensures StrLe(a, b) || StrLe(b, a)
  {
    if a != [] && b != [] && a[0] == b[0] {
      StrLeTotal(a[1..], b[1..]);
    }
  }

  lemma {:induction false} StrLeAntisymmetric(a: string, b: string)
    requires StrLe(a, b) && StrLe(b, a)
    ensures a == b
  {
    if a != [] && b != [] {
      StrLeAntisymmetric(a[1..], b[1..]);
      assert a == [a[0]] + a[1..] && b == [b[0]] + b[1..];
    }
  }

  lemma {:induction false} StrLeTransitive(a: string, b: string, c: string)
    requires StrLe(a, b) && StrLe(b, c)
    ensures StrLe(a, c)
  {
    if a != [] && b != [] && c != [] && a[0] == b[0] && b[0] == c[0] {
      StrLeTransitive(a[1..], b[1..], c[1..]);
    }
  }

  predicate SortedStrings(s: seq<string>) {
    forall i, j :: 0 <= i < j < |s| ==> StrLe(s[i], s[j])
  }

  function InsertSorted(x: string, s: seq<string>): (r: seq<string>)
    requires SortedStrings(s)
    ensures SortedStrings(r) && multiset(r) == multiset(s) + multiset{x}
  {
    if s == [] then [x]
    else if StrLe(x, s[0]) then
      InsertAtHead(x, s);
      [x] + s
    else
      var t := InsertSorted(x, s[1..]);
      InsertAfterHead(x, s, t);
      [s[0]] + t
  }

  /** An element no greater than the head of a sorted list can go in front. */
  lemma InsertAtHead(x: string, s: seq<string>)
    requires SortedStrings(s) && s != [] && StrLe(x, s[0])
    ensures SortedStrings([x] + s)
  {
    forall j | 0 <= j < |s| ensures StrLe(x, s[j]) {
      if j > 0 { StrLeTransitive(x, s[0], s[j]); }
    }
  }

  /** An element greater than the head goes into the tail, and the head stays in front. */
  lemma InsertAfterHead(x: string, s: seq<string>, t: seq<string>)
    requires SortedStrings(s) && s != [] && !StrLe(x, s[0])
    requires SortedStrings(t) && multiset(t) == multiset(s[1..]) + multiset{x}
    ensures SortedStrings([s[0]] + t) && multiset([s[0]] + t) == multiset(s) + multiset{x}
  {
    StrLeTotal(x, s[0]);
    assert s == [s[0]] + s[1..];
    forall j | 0 <= j < |t| ensures StrLe(s[0], t[j]) {
      var y := t[j];
      assert y in multiset(t);
      if y != x {
        assert y in multiset(s[1..]);
        var k :| 0 <= k < |s[1..]| && s[1..][k] == y;
        assert s[k + 1] == y;
      }
    }
  }

  /** `sorted(xs)` on strings: an ordered permutation of `xs`. */
  function SortStrings(xs: seq<string>): (r: seq<string>)
    ensures SortedStrings(r) && multiset(r) == multiset(xs)
  {
    if xs == [] then []
    else
      assert xs == [xs[0]] + xs[1..];
      InsertSorted(xs[0], SortStrings(xs[1..]))
  }
}
