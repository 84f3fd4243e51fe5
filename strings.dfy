/**
 * The handful of Python `str` and `re` operations the application relies on, written
 * out over `seq<char>`. Whitespace is Python's own set (what `str.isspace` and `\s`
 * accept); case mapping and `isalnum` cover ASCII only.
 */
module Strings {
  import opened Wrappers

  /** Python's whitespace: what `str.isspace()`, `str.strip()` and the regex class `\s` accept. */
  predicate IsSpace(c: char) {
    ('\U{9}' <= c <= '\U{D}') || ('\U{1C}' <= c <= ' ') || c == '\U{85}' || c == '\U{A0}'
    || c == '\U{1680}' || ('\U{2000}' <= c <= '\U{200A}') || c == '\U{2028}' || c == '\U{2029}'
    || c == '\U{202F}' || c == '\U{205F}' || c == '\U{3000}'
  }

  predicate IsDigit(c: char) { '0' <= c <= '9' }

  predicate IsAsciiLetter(c: char) { ('a' <= c <= 'z') || ('A' <= c <= 'Z') }

  predicate IsAlnum(c: char) { IsAsciiLetter(c) || IsDigit(c) }

  /** Number of whitespace characters at the front of `s`. */
  function LeadingSpaces(s: string): (n: nat)
    ensures n <= |s|
    ensures forall i :: 0 <= i < n ==> IsSpace(s[i])
    ensures n < |s| ==> !IsSpace(s[n])
  {
    if s != [] && IsSpace(s[0]) then 1 + LeadingSpaces(s[1..]) else 0
  }

  /** Number of whitespace characters at the end of `s`. */
  function TrailingSpaces(s: string): (n: nat)
    ensures n <= |s|
    ensures forall i :: |s| - n <= i < |s| ==> IsSpace(s[i])
    ensures n < |s| ==> !IsSpace(s[|s| - n - 1])
  {
    if s != [] && IsSpace(s[|s| - 1]) then 1 + TrailingSpaces(s[..|s| - 1]) else 0
  }

  /** `str.lstrip()` */
  function LStrip(s: string): (r: string)
    ensures r == s[LeadingSpaces(s)..]
    ensures r == [] || !IsSpace(r[0])
  {
    s[LeadingSpaces(s)..]
  }

  /** `str.rstrip()` */
  function RStrip(s: string): (r: string)
    ensures r == s[..|s| - TrailingSpaces(s)]
    ensures r == [] || !IsSpace(r[|r| - 1])
  {
    s[..|s| - TrailingSpaces(s)]
  }

  predicate IsStripped(s: string) {
    s == [] || (!IsSpace(s[0]) && !IsSpace(s[|s| - 1]))
  }

  predicate AllSpace(s: string) {
    forall i :: 0 <= i < |s| ==> IsSpace(s[i])
  }

  /** `str.strip()`: the slice of `s` left after dropping whitespace at both ends. */
  function Strip(s: string): (r: string)
    ensures IsStripped(r)
    ensures |r| <= |s|
    ensures exists a :: (0 <= a <= |s| - |r| && s[a..a + |r|] == r
                          && AllSpace(s[..a]) && AllSpace(s[a + |r|..]))
  {
    var a := LeadingSpaces(s);
    var t := s[a..];
    var r := RStrip(t);
    assert s[a..a + |r|] == r;
    assert AllSpace(s[..a]);
    assert s[a + |r|..] == t[|r|..];
    r
  }

  /** Stripping adds no character. */
  lemma StripSubset(s: string)
    ensures forall c :: c in Strip(s) ==> c in s
  {
    var r := Strip(s);
    var a :| 0 <= a <= |s| - |r| && s[a..a + |r|] == r && AllSpace(s[..a]) && AllSpace(s[a + |r|..]);
    assert forall i :: 0 <= i < |r| ==> r[i] == s[a + i];
  }

  lemma StripOfStripped(s: string)
    requires IsStripped(s)
    ensures Strip(s) == s
  {
  }

  /** Strip of text that starts and ends with non-space characters leaves it alone. */
  lemma StripIdempotent(s: string)
    ensures Strip(Strip(s)) == Strip(s)
  {
    StripOfStripped(Strip(s));
  }

  /** Whitespace in front of a string that has a non-space character is all `lstrip` removes. */
  lemma LStripAppend(a: string, b: string)
    requires exists i :: 0 <= i < |a| && !IsSpace(a[i])
    ensures LStrip(a + b) == LStrip(a) + b
  {
    LeadingSpacesAppend(a, b);
  }

  lemma {:induction false} LeadingSpacesAppend(a: string, b: string)
    requires LeadingSpaces(a) < |a|
    ensures LeadingSpaces(a + b) == LeadingSpaces(a)
  {
    if IsSpace(a[0]) {
      assert (a + b)[1..] == a[1..] + b;
      LeadingSpacesAppend(a[1..], b);
    }
  }

  lemma LeadingSpacesSpacePrefix(w: string, b: string)
    requires AllSpace(w)
    requires b == [] || !IsSpace(b[0])
    ensures LeadingSpaces(w + b) == |w|
    decreases |w|
  {
    if w != [] {
      assert (w + b)[1..] == w[1..] + b;
      LeadingSpacesSpacePrefix(w[1..], b);
    }
  }

  /** ASCII `str.lower()` of one character. */
  function LowerChar(c: char): char {
    if 'A' <= c <= 'Z' then (c as int - 'A' as int + 'a' as int) as char else c
  }

  function UpperChar(c: char): char {
    if 'a' <= c <= 'z' then (c as int - 'a' as int + 'A' as int) as char else c
  }

  /** `str.lower()` (ASCII letters). */
  function Lower(s: string): (r: string)
    ensures |r| == |s|
    ensures forall i :: 0 <= i < |s| ==> r[i] == LowerChar(s[i])
  {
    seq(|s|, i requires 0 <= i < |s| => LowerChar(s[i]))
  }

  /** Lower-casing keeps a suffix a suffix. */
  lemma LowerEndsWith(s: string, p: string)
    requires EndsWith(s, p)
    ensures EndsWith(Lower(s), Lower(p))
  {
    var k := |s| - |p|;
    forall i | 0 <= i < |p|
      ensures Lower(s)[k..][i] == Lower(p)[i]
    {
      assert s[k..][i] == p[i];
    }
  }

  lemma LowerAppend(a: string, b: string)
    ensures Lower(a + b) == Lower(a) + Lower(b)
  {
  }

  lemma LowerIdempotent(s: string)
    ensures Lower(Lower(s)) == Lower(s)
  {
  }

  /**
   * `str.title()` over ASCII: a letter is upper-cased when it follows a non-letter
   * (or starts the string) and lower-cased otherwise.
   */
  function Title(s: string): (r: string)
    ensures |r| == |s|
  {
    seq(|s|, i requires 0 <= i < |s| =>
      if i == 0 || !IsAsciiLetter(s[i - 1]) then UpperChar(s[i]) else LowerChar(s[i]))
  }

  predicate StartsWith(s: string, p: string) {
    |p| <= |s| && s[..|p|] == p
  }

  predicate EndsWith(s: string, p: string) {
    |p| <= |s| && s[|s| - |p|..] == p
  }

  /** `sub in s` */
  predicate Contains(s: string, sub: string) {
    exists i: nat | i <= |s| :: OccursAt(s, sub, i)
  }

  predicate OccursAt(s: string, sub: string, i: nat) {
    i + |sub| <= |s| && s[i..i + |sub|] == sub
  }

  /** A needle whose first character does not occur in the haystack is not in it. */
  lemma NotContainsFirstChar(s: string, sub: string)
    requires sub != [] && sub[0] !in s
    ensures !Contains(s, sub)
  {
    forall i: nat | i + |sub| <= |s|
      ensures !OccursAt(s, sub, i)
    {
      assert s[i] in s;
    }
  }

  lemma ContainsAt(s: string, sub: string, i: nat)
    requires OccursAt(s, sub, i)
    ensures Contains(s, sub)
  {
  }

  /** The middle part of a concatenation occurs in it. */
  lemma ContainsMiddle(a: string, b: string, c: string)
    ensures Contains(a + b + c, b)
  {
    assert (a + b + c)[|a|..|a| + |b|] == b;
    ContainsAt(a + b + c, b, |a|);
  }

  /** `sep.join(parts)` */
  function Join(parts: seq<string>, sep: string): string {
    if parts == [] then []
    else if |parts| == 1 then parts[0]
    else parts[0] + sep + Join(parts[1..], sep)
  }

  /** `re.sub(r'\s+', rep, s)`: every maximal run of whitespace becomes `rep`. */
  function CollapseSpaces(s: string, rep: string): string
    decreases |s|
  {
    if s == [] then []
    else if IsSpace(s[0]) then rep + CollapseSpaces(s[LeadingSpaces(s)..], rep)
    else [s[0]] + CollapseSpaces(s[1..], rep)
  }

  /** Collapsing adds no character but those of `rep`, and keeps whitespace only inside `rep`. */
  lemma {:induction false} CollapseSpacesChars(s: string, rep: string)
    ensures forall c :: c in CollapseSpaces(s, rep) ==> c in s || c in rep
    ensures forall c :: c in CollapseSpaces(s, rep) && IsSpace(c) ==> c in rep
    decreases |s|
  {
    if s != [] {
      var n := if IsSpace(s[0]) then LeadingSpaces(s) else 1;
      CollapseSpacesChars(s[n..], rep);
      assert forall c :: c in s[n..] ==> c in s;
    }
  }

  predicate NoDoubleSpace(s: string) {
    forall i :: 0 <= i < |s| - 1 ==> !(IsSpace(s[i]) && IsSpace(s[i + 1]))
  }

  /** After `re.sub(r'\s+', ' ', s)` no two whitespace characters are adjacent. */
  lemma {:induction false} CollapseSingleSpaced(s: string)
    ensures NoDoubleSpace(CollapseSpaces(s, " "))
    ensures CollapseSpaces(s, " ") == [] || s == [] || (IsSpace(s[0]) <==> IsSpace(CollapseSpaces(s, " ")[0]))
    decreases |s|
  {
    if s == [] {
    } else if IsSpace(s[0]) {
      var n := LeadingSpaces(s);
      CollapseSingleSpaced(s[n..]);
      var rest := CollapseSpaces(s[n..], " ");
      if rest != [] {
        assert !IsSpace(rest[0]);
      }
    } else {
      CollapseSingleSpaced(s[1..]);
    }
  }

  /** A slice of a string without adjacent whitespace has none either. */
  lemma NoDoubleSpaceSlice(s: string, a: nat, b: nat)
    requires a <= b <= |s| && NoDoubleSpace(s)
    ensures NoDoubleSpace(s[a..b])
  {
    assert forall i :: 0 <= i < b - a ==> s[a..b][i] == s[a + i];
  }

  /** Drop every character of `bad`: `re.sub('[...]', '', s)` for a character class. */
  function DropChars(s: string, bad: set<char>): string {
    if s == [] then []
    else if s[0] in bad then DropChars(s[1..], bad)
    else [s[0]] + DropChars(s[1..], bad)
  }

  /** Dropping keeps only characters of `s` outside `bad`, and never lengthens. */
  lemma {:induction false} DropCharsSafe(s: string, bad: set<char>)
    ensures forall c :: c in DropChars(s, bad) ==> c in s && c !in bad
    ensures |DropChars(s, bad)| <= |s|
  {
    if s != [] {
      DropCharsSafe(s[1..], bad);
      assert forall c :: c in s[1..] ==> c in s;
    }
  }

  /** Text without any character of `bad` is left alone. */
  lemma {:induction false} DropCharsNone(s: string, bad: set<char>)
    requires forall c :: c in s ==> c !in bad
    ensures DropChars(s, bad) == s
    decreases |s|
  {
    if s != [] {
      assert s[0] in s;
      assert forall c :: c in s[1..] ==> c in s;
      DropCharsNone(s[1..], bad);
      assert [s[0]] + s[1..] == s;
    }
  }

  /** Text without whitespace is left alone by `re.sub(r'\s+', rep, s)`. */
  lemma {:induction false} CollapseSpacesNone(s: string, rep: string)
    requires forall c :: c in s ==> !IsSpace(c)
    ensures CollapseSpaces(s, rep) == s
    decreases |s|
  {
    if s != [] {
      assert s[0] in s;
      assert forall c :: c in s[1..] ==> c in s;
      CollapseSpacesNone(s[1..], rep);
      assert [s[0]] + s[1..] == s;
    }
  }

  /** `s.replace(c, t)` for a one-character pattern `c`. */
  function ReplaceChar(s: string, c: char, t: string): (r: string)
    ensures forall d :: d in r ==> (d in s && d != c) || d in t
  {
    if s == [] then []
    else
      var rest := ReplaceChar(s[1..], c, t);
      assert forall d :: d in s[1..] ==> d in s;
      (if s[0] == c then t else [s[0]]) + rest
  }

  lemma ReplaceCharAppend(a: string, b: string, c: char, t: string)
    ensures ReplaceChar(a + b, c, t) == ReplaceChar(a, c, t) + ReplaceChar(b, c, t)
  {
    if a == [] {
      assert a + b == b;
    } else {
      assert (a + b)[0] == a[0];
      assert (a + b)[1..] == a[1..] + b;
      ReplaceCharAppend(a[1..], b, c, t);
    }
  }

  lemma ReplaceCharAbsent(s: string, c: char, t: string)
    requires c !in s
    ensures ReplaceChar(s, c, t) == s
  {
    if s != [] {
      assert c !in s[1..];
      ReplaceCharAbsent(s[1..], c, t);
    }
  }

  /** `s.replace(pat, rep)` for a non-empty `pat`: occurrences replaced left to right, without overlap. */
  function ReplaceAll(s: string, pat: string, rep: string): string
    requires pat != []
    decreases |s|
  {
    if s == [] then []
    else if StartsWith(s, pat) then rep + ReplaceAll(s[|pat|..], pat, rep)
    else [s[0]] + ReplaceAll(s[1..], pat, rep)
  }

  /** A string without the pattern is left as it is. */
  lemma {:induction false} ReplaceAllAbsent(s: string, pat: string, rep: string)
    requires pat != [] && !Contains(s, pat)
    ensures ReplaceAll(s, pat, rep) == s
    decreases |s|
  {
    if s != [] {
      assert !OccursAt(s, pat, 0);
      assert !StartsWith(s, pat);
      forall i: nat | i <= |s[1..]|
        ensures !OccursAt(s[1..], pat, i)
      {
        assert !OccursAt(s, pat, i + 1);
        if i + |pat| <= |s[1..]| {
          assert s[1..][i..i + |pat|] == s[i + 1..i + 1 + |pat|];
        }
      }
      ReplaceAllAbsent(s[1..], pat, rep);
    }
  }

  /** `s.split(c)` for a one-character separator: always at least one field. */
  function SplitChar(s: string, c: char): (r: seq<string>)
    ensures |r| >= 1
    decreases |s|
  {
    if s == [] then [[]]
    else
      var rest := SplitChar(s[1..], c);
      if s[0] == c then [[]] + rest else [[s[0]] + rest[0]] + rest[1..]
  }

  /** Text without the separator is a single field. */
  lemma {:induction false} SplitCharNone(s: string, c: char)
    requires c !in s
    ensures SplitChar(s, c) == [s]
    decreases |s|
  {
    if s != [] {
      assert c !in s[1..];
      SplitCharNone(s[1..], c);
      assert [s[0]] + s[1..] == s;
    }
  }

  /** Splitting at the first separator peels off the text before it. */
  lemma {:induction false} SplitCharAppend(a: string, b: string, c: char)
    requires c !in a
    ensures SplitChar(a + [c] + b, c) == [a] + SplitChar(b, c)
    decreases |a|
  {
    var s := a + [c] + b;
    if a == [] {
      assert s[1..] == b;
    } else {
      assert s[0] == a[0];
      assert s[1..] == a[1..] + [c] + b;
      assert c !in a[1..];
      SplitCharAppend(a[1..], b, c);
      assert [a[0]] + a[1..] == a;
    }
  }

  /** `s.lstrip(c)` for a single character. */
  function LStripChar(s: string, c: char): (r: string)
    ensures |r| <= |s| && r == s[|s| - |r|..]
    ensures r == [] || r[0] != c
    ensures forall i :: 0 <= i < |s| - |r| ==> s[i] == c
    decreases |s|
  {
    if s != [] && s[0] == c then
      var r := LStripChar(s[1..], c);
      assert s[1..][|s| - 1 - |r|..] == s[|s| - |r|..];
      r
    else s
  }

  /** `s[:n]` with Python's clamping (and counting from the end when `n` is negative). */
  function PyPrefix<T>(s: seq<T>, n: int): (r: seq<T>)
    ensures |r| <= |s|
    ensures 0 <= n ==> |r| == (if n < |s| then n else |s|)
    ensures n < 0 ==> |r| == (if -n >= |s| then 0 else |s| + n)
    ensures r == s[..|r|]
  {
    var k := if n < 0 then (if -n >= |s| then 0 else |s| + n) else (if n > |s| then |s| else n);
    s[..k]
  }

  function DigitChar(d: nat): char
    requires d < 10
  {
    ('0' as int + d) as char
  }

  /** `str(n)` for a non-negative integer. */
  function NatToString(n: nat): (r: string)
    ensures |r| >= 1
    ensures forall c :: c in r ==> IsDigit(c)
    decreases n
  {
    if n < 10 then [DigitChar(n)] else NatToString(n / 10) + [DigitChar(n % 10)]
  }

  /** `str(i)` */
  function IntToString(i: int): (r: string)
    ensures |r| >= 1
    ensures r[0] == '-' <==> i < 0
  {
    if i < 0 then "-" + NatToString(-i)
    else
      var r := NatToString(i);
      assert r[0] in r;
      r
  }

  /** `int(s)` on a string of decimal digits. */
  function ParseDigits(s: string): nat
    requires forall c :: c in s ==> IsDigit(c)
  {
    if s == [] then 0
    else
      assert forall c :: c in s[..|s| - 1] ==> c in s;
      var d := s[|s| - 1];
      assert d in s;
      assert IsDigit(d);
      ParseDigits(s[..|s| - 1]) * 10 + (d as int - '0' as int)
  }

  /** `int(str(n)) == n` */
  lemma {:induction false} NatToStringRoundTrip(n: nat)
    ensures ParseDigits(NatToString(n)) == n
    decreases n
  {
    if n >= 10 {
      var s := NatToString(n);
      assert s[..|s| - 1] == NatToString(n / 10);
      NatToStringRoundTrip(n / 10);
    }
  }

  lemma NatToStringInjective(m: nat, n: nat)
    requires NatToString(m) == NatToString(n)
    ensures m == n
  {
    NatToStringRoundTrip(m);
    NatToStringRoundTrip(n);
  }

  predicate AllDigits(s: string) {
    forall c :: c in s ==> IsDigit(c)
  }

  /** `int(text)`: optional surrounding whitespace, an optional sign, then decimal digits. */
  function ParseInt(s: string): (r: Option<int>)
    ensures r.Some? ==> Strip(s) != [] && (r.value < 0 ==> Strip(s)[0] == '-')
  {
    var t := Strip(s);
    if t == [] then None
    else if t[0] == '-' || t[0] == '+' then
      var d := t[1..];
      if d != [] && AllDigits(d) then
        var n := ParseDigits(d);
        if t[0] == '-' then Some(-(n as int)) else Some(n)
      else None
    else if AllDigits(t) then
      Some(ParseDigits(t))
    else None
  }

  /** `int(str(i)) == i` */
  lemma ParseIntRoundTrip(i: int)
    ensures ParseInt(IntToString(i)) == Some(i)
  {
    var s := IntToString(i);
    var n := if i < 0 then -i else i;
    var d := NatToString(n);
    assert d[|d| - 1] in d;
    assert d[0] in d;
    StripOfStripped(s);
    NatToStringRoundTrip(n);
    if i < 0 {
      assert s[1..] == d;
    }
  }
}
