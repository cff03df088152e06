/** The Python `str` operations the scripts rely on, written out on sequences of
    characters. Case mapping, white space and word characters follow Python on
    the ASCII range; other characters are treated as uncased, non-space and
    non-word. */
module Text {

  // ---------------------------------------------------------------------------
  // Character classes
  // ---------------------------------------------------------------------------

  /** The ASCII characters `str.isspace()` accepts, hence those `str.strip()` removes. */
  predicate IsSpace(c: char) {
    c == ' ' || c == '\t' || c == '\n' || c == '\r' || c == '\U{000B}' || c == '\U{000C}'
    || ('\U{001C}' <= c <= '\U{001F}')
  }

  predicate IsUpperChar(c: char) { 'A' <= c <= 'Z' }

  predicate IsLowerChar(c: char) { 'a' <= c <= 'z' }

  predicate IsDigitChar(c: char) { '0' <= c <= '9' }

  /** An ASCII word character: a letter, a digit or `_`. This is the ASCII
      part of the regular-expression class `\w`; the non-ASCII letters and
      digits that Python's Unicode-aware `\w` also matches are not modelled. */
  predicate IsWordChar(c: char) {
    IsUpperChar(c) || IsLowerChar(c) || IsDigitChar(c) || c == '_'
  }

  function LowerChar(c: char): (d: char)
    ensures !IsUpperChar(d)
    ensures IsUpperChar(c) ==> d as int == c as int + 32
    ensures !IsUpperChar(c) ==> d == c
  {
    if IsUpperChar(c) then (c as int + 32) as char else c
  }

  function UpperChar(c: char): (d: char)
    ensures !IsLowerChar(d)
    ensures IsLowerChar(c) ==> d as int == c as int - 32
    ensures !IsLowerChar(c) ==> d == c
  {
    if IsLowerChar(c) then (c as int - 32) as char else c
  }

  // ---------------------------------------------------------------------------
  // Case mapping
  // ---------------------------------------------------------------------------

  /** `str.lower()`. */
  function Lower(s: string): (r: string)
    ensures |r| == |s|
    ensures forall i :: 0 <= i < |s| ==> r[i] == LowerChar(s[i])
  {
    seq(|s|, i requires 0 <= i < |s| => LowerChar(s[i]))
  }

  /** Lower-casing leaves white space where it was, so a stripped string
      stays stripped. */
  lemma LowerKeepsStripped(s: string)
    requires s == [] || (!IsSpace(s[0]) && !IsSpace(s[|s| - 1]))
    ensures Strip(Lower(s)) == Lower(s)
  {
    var n := Lower(s);
    if n != [] {
      LowerCharKeepsSpace(s[0]);
      LowerCharKeepsSpace(s[|s| - 1]);
      assert !IsSpace(n[0]) && !IsSpace(n[|n| - 1]);
    }
  }

  /** Lower-casing a character does not make it white space. */
  lemma LowerCharKeepsSpace(c: char)
    requires !IsSpace(c)
    ensures !IsSpace(LowerChar(c))
  {
  }

  /** Lower-casing twice is lower-casing once. */
  lemma LowerIdempotent(s: string)
    ensures Lower(Lower(s)) == Lower(s)
  {
    var n := Lower(s);
    assert forall i :: 0 <= i < |n| ==> Lower(n)[i] == LowerChar(n[i]) == n[i];
  }

  /** `str.upper()`. */
  function Upper(s: string): (r: string)
    ensures |r| == |s|
    ensures forall i :: 0 <= i < |s| ==> r[i] == UpperChar(s[i])
  {
    seq(|s|, i requires 0 <= i < |s| => UpperChar(s[i]))
  }

  /** Upper-casing leaves no lower-case letter behind. */
  predicate NoLowerChar(s: string) {
    forall i :: 0 <= i < |s| ==> !IsLowerChar(s[i])
  }

  lemma UpperHasNoLower(s: string)
    ensures NoLowerChar(Upper(s))
  {
  }

  // ---------------------------------------------------------------------------
  // Prefixes, suffixes, substrings
  // ---------------------------------------------------------------------------

  predicate StartsWith(s: string, p: string) {
    |p| <= |s| && s[..|p|] == p
  }

  predicate EndsWith(s: string, p: string) {
    |p| <= |s| && s[|s| - |p|..] == p
  }

  /** `sub` occurs in `s` starting at index `i`. */
  predicate OccursAt(s: string, sub: string, i: int) {
    0 <= i && i + |sub| <= |s| && s[i..i + |sub|] == sub
  }

  /** `sub in s` for strings, scanned left to right. */
  predicate Contains(s: string, sub: string)
    decreases |s|
  {
    StartsWith(s, sub) || (|s| > 0 && Contains(s[1..], sub))
  }

  /** The scan finds exactly the positions where `sub` occurs. */
  lemma {:induction false} ContainsAt(s: string, sub: string)
    ensures Contains(s, sub) <==> exists i :: OccursAt(s, sub, i)
    decreases |s|
  {
    if StartsWith(s, sub) {
      assert OccursAt(s, sub, 0);
    } else if |s| > 0 {
      ContainsAt(s[1..], sub);
      if Contains(s[1..], sub) {
        var i :| OccursAt(s[1..], sub, i);
        assert s[i + 1..i + 1 + |sub|] == s[1..][i..i + |sub|];
        assert OccursAt(s, sub, i + 1);
      } else {
        forall i | OccursAt(s, sub, i)
          ensures false
        {
          if i > 0 {
            var t := s[1..];
            assert t[i - 1..i - 1 + |sub|] == s[i..i + |sub|];
            assert OccursAt(t, sub, i - 1);
          }
        }
      }
    } else {
      forall i | OccursAt(s, sub, i)
        ensures false
      {
      }
    }
  }

  /** A string occurs in every string that has it as a slice. */
  lemma ContainsSlice(s: string, sub: string, i: nat)
    requires OccursAt(s, sub, i)
    ensures Contains(s, sub)
  {
    ContainsAt(s, sub);
  }

  /** A string without the first character of `sub` does not contain it. */
  lemma FirstCharAbsent(s: string, sub: string)
    requires |sub| > 0 && forall i :: 0 <= i < |s| ==> s[i] != sub[0]
    ensures !Contains(s, sub)
  {
    ContainsAt(s, sub);
    forall i | OccursAt(s, sub, i)
      ensures false
    {
    }
  }

  /** A string in which the first two characters of `sub` never stand side
      by side does not contain it. */
  lemma FirstPairAbsent(s: string, sub: string)
    requires |sub| >= 2 && forall i :: 0 <= i < |s| - 1 ==> !(s[i] == sub[0] && s[i + 1] == sub[1])
    ensures !Contains(s, sub)
  {
    ContainsAt(s, sub);
    forall i | OccursAt(s, sub, i)
      ensures false
    {
    }
  }

  /** A string does not contain anything longer than itself. */
  lemma LongerAbsent(s: string, sub: string)
    requires |sub| > |s|
    ensures !Contains(s, sub)
  {
    ContainsAt(s, sub);
  }

  /** When the first character of `sub` occurs in `s` only at its start, `sub`
      occurs in `s` only if `s` starts with it. */
  lemma OnlyAtStart(s: string, sub: string)
    requires |sub| > 0 && !StartsWith(s, sub)
    requires forall i :: 0 < i < |s| ==> s[i] != sub[0]
    ensures !Contains(s, sub)
  {
    ContainsAt(s, sub);
    forall i | OccursAt(s, sub, i)
      ensures false
    {
    }
  }

  /** Whatever contains `sub` contains every prefix of it. */
  lemma ContainsPrefix(s: string, sub: string, pre: string)
    requires Contains(s, sub) && StartsWith(sub, pre)
    ensures Contains(s, pre)
  {
    ContainsAt(s, sub);
    var i :| OccursAt(s, sub, i);
    assert s[i..i + |pre|] == sub[..|pre|];
    ContainsSlice(s, pre, i);
  }

  /** `s.find(c)`: the first index of `c`, or -1. */
  function Find(s: string, c: char): (r: int)
    ensures -1 <= r < |s|
    ensures r == -1 <==> c !in s
    ensures r >= 0 ==> s[r] == c && c !in s[..r]
  {
    if |s| == 0 then -1
    else if s[0] == c then 0
    else
      var k := Find(s[1..], c);
      assert s == [s[0]] + s[1..];
      if k == -1 then -1 else k + 1
  }

  /** `s.rfind(c)`: the last index of `c`, or -1. */
  function RFind(s: string, c: char): (r: int)
    ensures -1 <= r < |s|
    ensures r == -1 <==> c !in s
    ensures r >= 0 ==> s[r] == c && c !in s[r + 1..]
  {
    if |s| == 0 then -1
    else if s[|s| - 1] == c then |s| - 1
    else
      assert s == s[..|s| - 1] + [s[|s| - 1]];
      RFind(s[..|s| - 1], c)
  }

  /** The bound Python uses for one end of a slice `s[start:end]`. */
  function SliceBound(n: nat, b: int): (r: nat)
    ensures r <= n
    ensures 0 <= b <= n ==> r == b
  {
    if b < 0 then (if b + n < 0 then 0 else b + n)
    else if b > n then n
    else b
  }

  /** `s[start:end]` with Python's rules for negative and out-of-range bounds. */
  function PySlice(s: string, start: int, end: int): (r: string)
    ensures |r| <= |s|
  {
    var lo, hi := SliceBound(|s|, start), SliceBound(|s|, end);
    if lo < hi then s[lo..hi] else ""
  }

  // ---------------------------------------------------------------------------
  // Stripping
  // ---------------------------------------------------------------------------

  function StripLeft(s: string): (r: string)
    ensures |r| <= |s| && r == s[|s| - |r|..]
    ensures r == [] || !IsSpace(r[0])
    ensures forall i :: 0 <= i < |s| - |r| ==> IsSpace(s[i])
  {
    if |s| > 0 && IsSpace(s[0]) then StripLeft(s[1..]) else s
  }

  function StripRight(s: string): (r: string)
    ensures |r| <= |s| && r == s[..|r|]
    ensures r == [] || !IsSpace(r[|r| - 1])
    ensures forall i :: |r| <= i < |s| ==> IsSpace(s[i])
  {
    if |s| > 0 && IsSpace(s[|s| - 1]) then StripRight(s[..|s| - 1]) else s
  }

  /** `str.strip()`: the longest slice of `s` with no white space at either end,
      obtained by dropping white space only. */
  function Strip(s: string): (r: string)
    ensures |r| <= |s|
    ensures r == [] || (!IsSpace(r[0]) && !IsSpace(r[|r| - 1]))
    ensures (s == [] || (!IsSpace(s[0]) && !IsSpace(s[|s| - 1]))) ==> r == s
  {
    StripRight(StripLeft(s))
  }

  /** Drops one trailing occurrence of `suffix`, as `x[:-4]` after `x.endswith(".ttl")`. */
  function DropSuffix(s: string, suffix: string): (r: string)
    ensures EndsWith(s, suffix) ==> r + suffix == s
    ensures !EndsWith(s, suffix) ==> r == s
  {
    if EndsWith(s, suffix) then s[..|s| - |suffix|] else s
  }

  // ---------------------------------------------------------------------------
  // Replacing, splitting, joining
  // ---------------------------------------------------------------------------

  /** `s.replace(pat, rep)`: every non-overlapping occurrence, left to right. */
  function ReplaceAll(s: string, pat: string, rep: string): (r: string)
    requires |pat| > 0
    ensures !Contains(s, pat) ==> r == s
    decreases |s|
  {
    if |s| == 0 then ""
    else if StartsWith(s, pat) then rep + ReplaceAll(s[|pat|..], pat, rep)
    else [s[0]] + ReplaceAll(s[1..], pat, rep)
  }

  /** The last element of `re.split("[" + seps + "]", s)`: everything after the
      last separator, or all of `s`. */
  function AfterLast(s: string, seps: set<char>): (r: string)
    ensures |r| <= |s| && r == s[|s| - |r|..]
    ensures forall i :: 0 <= i < |r| ==> r[i] !in seps
    ensures |r| < |s| ==> s[|s| - |r| - 1] in seps
  {
    if |s| == 0 then ""
    else if s[|s| - 1] in seps then ""
    else AfterLast(s[..|s| - 1], seps) + [s[|s| - 1]]
  }

  /** `sep.join(parts)`. */
  function Join(parts: seq<string>, sep: string): (r: string)
    ensures parts == [] ==> r == ""
    ensures |parts| == 1 ==> r == parts[0]
  {
    if |parts| == 0 then ""
    else if |parts| == 1 then parts[0]
    else parts[0] + sep + Join(parts[1..], sep)
  }

  /** Joining two non-empty runs of parts puts one separator between them. */
  lemma {:induction false} JoinAppend(a: seq<string>, b: seq<string>, sep: string)
    requires a != [] && b != []
    ensures Join(a + b, sep) == Join(a, sep) + sep + Join(b, sep)
    decreases |a|
  {
    if |a| == 1 {
      assert (a + b)[1..] == b;
    } else {
      assert (a + b)[1..] == a[1..] + b;
      JoinAppend(a[1..], b, sep);
    }
  }

  /** Joining n parts writes the parts and n - 1 separators, nothing else. */
  lemma {:induction false} JoinLength(parts: seq<string>, sep: string)
    requires parts != []
    ensures |Join(parts, sep)| == TotalLength(parts) + (|parts| - 1) * |sep|
    decreases |parts|
  {
    if |parts| > 1 {
      JoinLength(parts[1..], sep);
    }
  }

  function TotalLength(parts: seq<string>): nat {
    if parts == [] then 0 else |parts[0]| + TotalLength(parts[1..])
  }

  // ---------------------------------------------------------------------------
  // Word-boundary token search (the regular expressions `\bTok` with re.I)
  // ---------------------------------------------------------------------------

  /** `\b` at position `i` of `s`: exactly one side is a word character. */
  predicate WordBoundary(s: string, i: nat)
    requires i <= |s|
  {
    (i > 0 && IsWordChar(s[i - 1])) != (i < |s| && IsWordChar(s[i]))
  }

  /** `tok` occurs case-insensitively at `i`, and `\b` holds just before it.
      Every token used starts with a letter, so `\b` there means that `i` is
      the start of `s` or follows a non-word character. */
  predicate TokenAt(s: string, i: nat, tok: string) {
    i + |tok| <= |s| && Lower(s[i..i + |tok|]) == Lower(tok) && WordBoundary(s, i)
  }

  /** `re.search(r"\b" + tok, s, re.I)` succeeds. */
  predicate HasToken(s: string, tok: string) {
    exists i :: 0 <= i <= |s| && TokenAt(s, i, tok)
  }

  /** In a string made only of word characters the only word boundary before
      a character is the start, so a token that does not open the string
      occurs nowhere. */
  lemma WordOnlyNoToken(s: string, tok: string)
    requires forall i :: 0 <= i < |s| ==> IsWordChar(s[i])
    requires |tok| > 0 && !TokenAt(s, 0, tok)
    ensures !HasToken(s, tok)
  {
    forall i | 0 <= i <= |s|
      ensures !TokenAt(s, i, tok)
    {
      if 0 < i < |s| {
        assert IsWordChar(s[i - 1]) && IsWordChar(s[i]);
      }
    }
  }

  /** Decimal rendering of a natural number, as `str(n)`. */
  function NatToString(n: nat): (r: string)
    ensures |r| >= 1
    ensures forall i :: 0 <= i < |r| ==> IsDigitChar(r[i])
    decreases n
  {
    if n < 10 then [(48 + n) as char]
    else NatToString(n / 10) + [(48 + n % 10) as char]
  }

  /** `str(i)` for any integer. */
  function IntToString(i: int): string {
    if i < 0 then "-" + NatToString(-i) else NatToString(i)
  }
}
