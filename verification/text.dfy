/** String operations with JavaScript semantics, on strings taken as sequences of
    Unicode scalar values (Dafny's `char`): the whitespace of `\s` and `String.prototype.trim`, ASCII case
    mapping, `includes`, `startsWith`, global literal replacement, `split`/`join`. */
module Text {
  import opened Types

  /** The characters JavaScript's `\s` and `trim` treat as white space
      (WhiteSpace and LineTerminator of ECMA-262). */
  predicate IsSpace(c: char) {
    || c == ' ' || c == '\t' || c == '\n' || c == '\r'
    || c == '\U{000B}' || c == '\U{000C}' || c == '\U{00A0}' || c == '\U{1680}'
    || ('\U{2000}' <= c <= '\U{200A}')
    || c == '\U{2028}' || c == '\U{2029}' || c == '\U{202F}' || c == '\U{205F}'
    || c == '\U{3000}' || c == '\U{FEFF}'
  }

  predicate IsUpperLetter(c: char) { 'A' <= c <= 'Z' }

  predicate IsLowerLetter(c: char) { 'a' <= c <= 'z' }

  predicate IsLetter(c: char) { IsUpperLetter(c) || IsLowerLetter(c) }

  /** The class `\w` of a non-unicode regular expression: `[A-Za-z0-9_]`. */
  predicate IsWordChar(c: char) { IsLetter(c) || ('0' <= c <= '9') || c == '_' }

  function LowerChar(c: char): (d: char)
    ensures IsSpace(d) == IsSpace(c)
    ensures !IsUpperLetter(d)
  {
    if IsUpperLetter(c) then (c as int + 32) as char else c
  }

  function UpperChar(c: char): (d: char)
    ensures IsSpace(d) == IsSpace(c)
    ensures !IsLowerLetter(d)
  {
    if IsLowerLetter(c) then (c as int - 32) as char else c
  }

  /** `toLowerCase`, restricted to ASCII letters. */
  function Lower(s: string): (r: string)
    ensures |r| == |s|
  {
    seq(|s|, i requires 0 <= i < |s| => LowerChar(s[i]))
  }

  predicate StartsWith(s: string, p: string) {
    |p| <= |s| && s[..|p|] == p
  }

  /** `s.includes(p)`. */
  predicate Contains(s: string, p: string)
    decreases |s|
  {
    StartsWith(s, p) || (|s| > 0 && Contains(s[1..], p))
  }

  function TrimStart(s: string): (r: string)
    ensures |r| <= |s| && r == s[|s| - |r|..]
    ensures |r| == 0 || !IsSpace(r[0])
    ensures forall i :: 0 <= i < |s| - |r| ==> IsSpace(s[i])
    decreases |s|
  {
    if |s| > 0 && IsSpace(s[0]) then TrimStart(s[1..]) else s
  }

  function TrimEnd(s: string): (r: string)
    ensures |r| <= |s| && r == s[..|r|]
    ensures |r| == 0 || !IsSpace(r[|r| - 1])
    ensures forall i :: |r| <= i < |s| ==> IsSpace(s[i])
    decreases |s|
  {
    if |s| > 0 && IsSpace(s[|s| - 1]) then TrimEnd(s[..|s| - 1]) else s
  }

  /** `s.trim()`. */
  function Trim(s: string): (r: string)
    ensures |r| <= |s|
    ensures |r| == 0 || (!IsSpace(r[0]) && !IsSpace(r[|r| - 1]))
  {
    TrimEnd(TrimStart(s))
  }

  /** `s.replace(/p/g, '')` for a literal `p`: occurrences are removed left to right
      and never overlap. */
  function RemoveAll(s: string, p: string): (r: string)
    requires |p| > 0
    ensures |r| <= |s|
    decreases |s|
  {
    if |s| == 0 then ""
    else if StartsWith(s, p) then RemoveAll(s[|p|..], p)
    else [s[0]] + RemoveAll(s[1..], p)
  }

  /** `s.indexOf(c)`, with `None` for -1. */
  function IndexOf(s: string, c: char): (r: Option<nat>)
    ensures r.Some? ==> r.value < |s| && s[r.value] == c
    ensures r.Some? ==> forall i :: 0 <= i < r.value ==> s[i] != c
    ensures r.None? ==> forall i :: 0 <= i < |s| ==> s[i] != c
  {
    if |s| == 0 then None
    else if s[0] == c then Some(0)
    else match IndexOf(s[1..], c)
      case None => None
      case Some(k) => Some(k + 1)
  }

  /** `s.split(' ')[0]`: the text before the first space. */
  function FirstWord(s: string): (r: string)
    ensures StartsWith(s, r)
    ensures forall i :: 0 <= i < |r| ==> r[i] != ' '
    ensures |r| < |s| ==> s[|r|] == ' '
  {
    match IndexOf(s, ' ')
    case None => s
    case Some(k) => s[..k]
  }

  /** The concatenation of a sequence of strings, as built by `+=` over chunks. */
  function Concat(parts: seq<string>): string {
    if |parts| == 0 then "" else Concat(parts[..|parts| - 1]) + parts[|parts| - 1]
  }

  /** `parts.join(sep)`. */
  function Join(parts: seq<string>, sep: string): string {
    if |parts| == 0 then ""
    else if |parts| == 1 then parts[0]
    else parts[0] + sep + Join(parts[1..], sep)
  }

  predicate NoSpace(p: string) {
    forall i :: 0 <= i < |p| ==> !IsSpace(p[i])
  }

  lemma ConcatAppend(parts: seq<string>, last: string)
    ensures Concat(parts + [last]) == Concat(parts) + last
  {
    assert (parts + [last])[..|parts|] == parts;
  }

  lemma {:induction false} ConcatPrepend(first: string, parts: seq<string>)
    ensures Concat([first] + parts) == first + Concat(parts)
    decreases |parts|
  {
    if |parts| == 0 {
      assert [first] + parts == [first];
    } else {
      var init := parts[..|parts| - 1];
      assert [first] + parts == ([first] + init) + [parts[|parts| - 1]];
      ConcatAppend([first] + init, parts[|parts| - 1]);
      ConcatPrepend(first, init);
      ConcatAppend(init, parts[|parts| - 1]);
      assert init + [parts[|parts| - 1]] == parts;
    }
  }

  lemma TrimIdempotent(s: string)
    ensures Trim(Trim(s)) == Trim(s)
  {
    var t := Trim(s);
    assert TrimStart(t) == t;
    assert TrimEnd(t) == t;
  }

  lemma LowerIdempotent(s: string)
    ensures Lower(Lower(s)) == Lower(s)
  {
  }

  lemma {:induction false} LowerTrimStart(s: string)
    ensures Lower(TrimStart(s)) == TrimStart(Lower(s))
    decreases |s|
  {
    if |s| > 0 && IsSpace(s[0]) {
      assert Lower(s)[1..] == Lower(s[1..]);
      LowerTrimStart(s[1..]);
    }
  }

  lemma {:induction false} LowerTrimEnd(s: string)
    ensures Lower(TrimEnd(s)) == TrimEnd(Lower(s))
    decreases |s|
  {
    if |s| > 0 && IsSpace(s[|s| - 1]) {
      assert Lower(s)[..|s| - 1] == Lower(s[..|s| - 1]);
      LowerTrimEnd(s[..|s| - 1]);
    }
  }

  /** Lower-casing and trimming commute: neither changes what the other looks at. */
  lemma LowerTrim(s: string)
    ensures Lower(Trim(s)) == Trim(Lower(s))
  {
    LowerTrimStart(s);
    LowerTrimEnd(TrimStart(s));
  }

  lemma ContainsInit(s: string, p: string)
    requires |s| > 0 && Contains(s[..|s| - 1], p)
    ensures Contains(s, p)
    decreases |s|
  {
    var init := s[..|s| - 1];
    if StartsWith(init, p) {
      assert s[..|p|] == init[..|p|];
    } else {
      assert |init| > 0 && Contains(init[1..], p);
      assert init[1..] == s[1..][..|s[1..]| - 1];
      ContainsInit(s[1..], p);
    }
  }

  lemma {:induction false} ContainsTrimStart(s: string, p: string)
    ensures Contains(TrimStart(s), p) ==> Contains(s, p)
    ensures |p| > 0 && NoSpace(p) && Contains(s, p) ==> Contains(TrimStart(s), p)
    decreases |s|
  {
    if |s| > 0 && IsSpace(s[0]) {
      ContainsTrimStart(s[1..], p);
      if |p| > 0 && NoSpace(p) && Contains(s, p) {
        assert IsSpace(s[0]) && !IsSpace(p[0]);
        assert !StartsWith(s, p);
      }
    }
  }

  lemma {:induction false} ContainsTrimEnd(s: string, p: string)
    ensures Contains(TrimEnd(s), p) ==> Contains(s, p)
    ensures |p| > 0 && NoSpace(p) && Contains(s, p) ==> Contains(TrimEnd(s), p)
    decreases |s|
  {
    if |s| > 0 && IsSpace(s[|s| - 1]) {
      var init := s[..|s| - 1];
      ContainsTrimEnd(init, p);
      if Contains(init, p) {
        ContainsInit(s, p);
      }
      if |p| > 0 && NoSpace(p) && Contains(s, p) {
        ContainsDropSpace(s, p);
      }
    }
  }

  /** An occurrence of a word without white space never uses a trailing space. */
  lemma {:induction false} ContainsDropSpace(s: string, p: string)
    requires |s| > 0 && IsSpace(s[|s| - 1])
    requires |p| > 0 && NoSpace(p) && Contains(s, p)
    ensures Contains(s[..|s| - 1], p)
    decreases |s|
  {
    var init := s[..|s| - 1];
    if StartsWith(s, p) {
      assert p[|p| - 1] == s[|p| - 1] && !IsSpace(p[|p| - 1]);
      assert |p| < |s|;
      assert init[..|p|] == s[..|p|];
    } else {
      assert Contains(s[1..], p);
      assert |s| >= 2;
      ContainsDropSpace(s[1..], p);
      assert s[1..][..|s[1..]| - 1] == init[1..];
    }
  }

  /** Trimming never creates an occurrence, and never destroys one of a word
      without white space. */
  lemma ContainsTrim(s: string, p: string)
    ensures Contains(Trim(s), p) ==> Contains(s, p)
    ensures |p| > 0 && NoSpace(p) ==> (Contains(Trim(s), p) <==> Contains(s, p))
  {
    ContainsTrimStart(s, p);
    ContainsTrimEnd(TrimStart(s), p);
  }

  /** A string that contains `p + q` contains `p`. */
  lemma {:induction false} ContainsPrefix(s: string, p: string, q: string)
    requires Contains(s, p + q)
    ensures Contains(s, p)
    decreases |s|
  {
    if StartsWith(s, p + q) {
      assert s[..|p|] == (p + q)[..|p|];
    } else {
      ContainsPrefix(s[1..], p, q);
    }
  }

  lemma ContainsSelf(s: string)
    ensures Contains(s, s)
  {
    assert s[..|s|] == s;
  }

  /** An occurrence survives text added in front. */
  lemma {:induction false} ContainsPrepend(a: string, s: string, p: string)
    requires Contains(s, p)
    ensures Contains(a + s, p)
    decreases |a|
  {
    if |a| == 0 {
      assert a + s == s;
    } else {
      ContainsPrepend(a[1..], s, p);
      assert (a + s)[1..] == a[1..] + s;
    }
  }

  /** An occurrence survives text added behind. */
  lemma {:induction false} ContainsAppend(s: string, b: string, p: string)
    requires Contains(s, p)
    ensures Contains(s + b, p)
    decreases |s|
  {
    if StartsWith(s, p) {
      assert (s + b)[..|p|] == s[..|p|];
    } else {
      ContainsAppend(s[1..], b, p);
      assert (s + b)[1..] == s[1..] + b;
    }
  }

  /** A string contains every one of its infixes. */
  lemma ContainsInfix(p: string, s: string, q: string)
    ensures Contains(p + s + q, s)
  {
    ContainsSelf(s);
    ContainsPrepend(p, s, s);
    ContainsAppend(p + s, q, s);
  }

  /** A joined text contains each of its parts. */
  lemma {:induction false} ContainsJoin(parts: seq<string>, sep: string, i: nat)
    requires i < |parts|
    ensures Contains(Join(parts, sep), parts[i])
    decreases |parts|
  {
    if |parts| == 1 {
      ContainsSelf(parts[0]);
    } else if i == 0 {
      ContainsSelf(parts[0]);
      ContainsAppend(parts[0], sep + Join(parts[1..], sep), parts[0]);
      assert parts[0] + sep + Join(parts[1..], sep) == parts[0] + (sep + Join(parts[1..], sep));
    } else {
      ContainsJoin(parts[1..], sep, i - 1);
      ContainsPrepend(parts[0] + sep, Join(parts[1..], sep), parts[i]);
    }
  }

  lemma {:induction false} RemoveAllAbsent(s: string, p: string)
    requires |p| > 0 && !Contains(s, p)
    ensures RemoveAll(s, p) == s
    decreases |s|
  {
    if |s| > 0 {
      RemoveAllAbsent(s[1..], p);
    }
  }
}
