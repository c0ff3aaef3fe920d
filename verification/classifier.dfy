/** The orchestrator's text predicates: identity extraction (name and role), the bare
    role answer, and the task / conversational intent tests. Every one is a pure
    function of the text (services/orchestratorService.ts:261-318). */
module Classifier {
  import opened Types
  import opened Text

  // ---------------------------------------------------------------------------
  // Name extraction: the expression
  //   /(?:^|\s)(?:i['’]m|i\s+am|my\s+name\s+is|call\s+me)\s+([a-zA-Z\s]+?)(?=$|[\.!,])/i
  // searched leftmost-first in the trimmed text.
  // ---------------------------------------------------------------------------

  /** The introduction alternatives in pattern order; the words of one alternative
      are separated by `\s+` in the pattern. */
  const IntroPhrases: seq<seq<string>> :=
    [["i'm"], ["i\U{2019}m"], ["i", "am"], ["my", "name", "is"], ["call", "me"]]

  /** Captures that are ordinary phrases rather than names. */
  const Blacklist: seq<string> := ["a teacher", "a student", "ready", "here", "listening", "eduvane"]

  /** A character of the capture class `[a-zA-Z\s]`. */
  predicate IsNameChar(c: char) { IsLetter(c) || IsSpace(c) }

  /** Case-insensitive literal `w` (given in lower case) at position `q` of `t`. */
  predicate MatchesAt(t: string, q: nat, w: string) {
    q + |w| <= |t| && Lower(t[q..q + |w|]) == w
  }

  /** End of the longest run of white space starting at `q` (greedy `\s*`). */
  function SpaceRunEnd(t: string, q: nat): (e: nat)
    requires q <= |t|
    ensures q <= e <= |t|
    ensures forall i :: q <= i < e ==> IsSpace(t[i])
    ensures e == |t| || !IsSpace(t[e])
    decreases |t| - q
  {
    if q < |t| && IsSpace(t[q]) then SpaceRunEnd(t, q + 1) else q
  }

  /** End of the longest run of `[a-zA-Z\s]` starting at `q`. */
  function NameRunEnd(t: string, q: nat): (e: nat)
    requires q <= |t|
    ensures q <= e <= |t|
    ensures forall i :: q <= i < e ==> IsNameChar(t[i])
    ensures e == |t| || !IsNameChar(t[e])
    decreases |t| - q
  {
    if q < |t| && IsNameChar(t[q]) then NameRunEnd(t, q + 1) else q
  }

  /** The words of one alternative match from `q` to `e`, each gap being a
      non-empty run of white space. */
  predicate PhraseAt(t: string, q: nat, words: seq<string>, e: nat)
    decreases |words|
  {
    if |words| == 0 then e == q
    else
      && MatchesAt(t, q, words[0])
      && if |words| == 1 then e == q + |words[0]|
         else exists w :: q + |words[0]| < w <= |t|
                && (forall i :: q + |words[0]| <= i < w ==> IsSpace(t[i]))
                && PhraseAt(t, w, words[1..], e)
  }

  /** Matches the words of one alternative from `q`, each gap being `\s+`; the end
      of the match, if any. Only the longest white-space run can be followed by the
      next word's letter, so backtracking never finds another match. */
  function MatchWords(t: string, q: nat, words: seq<string>): (r: Option<nat>)
    requires q <= |t|
    ensures r.Some? ==> q <= r.value <= |t| && PhraseAt(t, q, words, r.value)
    decreases |words|
  {
    if |words| == 0 then Some(q)
    else if !MatchesAt(t, q, words[0]) then None
    else if |words| == 1 then Some(q + |words[0]|)
    else
      var w := SpaceRunEnd(t, q + |words[0]|);
      if w == q + |words[0]| then None else MatchWords(t, w, words[1..])
  }

  /** A match of the name expression: introduction phrase number `phrase` runs from
      `start` to `introEnd`, white space follows up to `begin`, and the captured
      group is `t[begin..end]`. */
  datatype NameMatch = NameMatch(start: nat, phrase: nat, introEnd: nat, begin: nat, end: nat)

  /** What the expression demands of a match after its `(?:^|\s)`: the phrase, one
      or more white-space characters, a non-empty capture of `[a-zA-Z\s]`, and then
      the end of the text or one of `.`, `!`, `,`. */
  predicate MatchesFrom(t: string, m: NameMatch) {
    && m.start <= m.introEnd < m.begin < m.end <= |t|
    && m.phrase < |IntroPhrases| && PhraseAt(t, m.start, IntroPhrases[m.phrase], m.introEnd)
    && (forall i :: m.introEnd <= i < m.begin ==> IsSpace(t[i]))
    && (forall i :: m.begin <= i < m.end ==> IsNameChar(t[i]))
    && (m.end == |t| || t[m.end] == '.' || t[m.end] == '!' || t[m.end] == ',')
  }

  /** A match of the whole expression: the phrase also starts a token. */
  predicate IsNameMatch(t: string, m: NameMatch) {
    TokenStart(t, m.start) && MatchesFrom(t, m)
  }

  /** The tail `\s+([a-zA-Z\s]+?)(?=$|[\.!,])` from `e0`: the bounds of the capture.
      The lazy capture can only stop where the look-ahead holds, which is the end of
      the `[a-zA-Z\s]` run; the greedy `\s+` first leaves the capture to start at the
      first non-space, and when that would make it empty it gives back one
      white-space character. */
  function CaptureAfter(t: string, e0: nat): (r: Option<(nat, nat)>)
    requires e0 <= |t|
    ensures r.Some? ==>
      && e0 < r.value.0 < r.value.1 <= |t|
      && (forall i :: e0 <= i < r.value.0 ==> IsSpace(t[i]))
      && (forall i :: r.value.0 <= i < r.value.1 ==> IsNameChar(t[i]))
      && (r.value.1 == |t| || t[r.value.1] == '.' || t[r.value.1] == '!' || t[r.value.1] == ',')
  {
    var w := SpaceRunEnd(t, e0);
    var e := NameRunEnd(t, w);
    if w == e0 then None
    else if !(e == |t| || t[e] == '.' || t[e] == '!' || t[e] == ',') then None
    else if w < e then Some((w, e))
    else if w - e0 >= 2 then Some((w - 1, e))
    else None
  }

  /** The first alternative, from index `k` on, whose whole remainder matches at `q`. */
  function IntroAt(t: string, q: nat, k: nat): (r: Option<NameMatch>)
    requires q <= |t|
    ensures r.Some? ==> r.value.start == q && MatchesFrom(t, r.value)
    decreases |IntroPhrases| - k
  {
    if k >= |IntroPhrases| then None
    else
      match MatchWords(t, q, IntroPhrases[k])
      case Some(e0) =>
        var c := CaptureAfter(t, e0);
        if c.Some? then Some(NameMatch(q, k, e0, c.value.0, c.value.1)) else IntroAt(t, q, k + 1)
      case None => IntroAt(t, q, k + 1)
  }

  /** A match starting at `i`: `^` (only at 0), else one white-space character. */
  function StartAt(t: string, i: nat): (r: Option<NameMatch>)
    requires i <= |t|
    ensures r.Some? ==> IsNameMatch(t, r.value) && i <= r.value.start <= i + 1
  {
    var anchored := if i == 0 then IntroAt(t, 0, 0) else None;
    if anchored.Some? then anchored
    else if i < |t| && IsSpace(t[i]) then IntroAt(t, i + 1, 0)
    else None
  }

  /** The leftmost match at or after `i`. */
  function SearchFrom(t: string, i: nat): (r: Option<NameMatch>)
    requires i <= |t|
    ensures r.Some? ==> IsNameMatch(t, r.value) && i <= r.value.start
    decreases |t| - i
  {
    var m := StartAt(t, i);
    if m.Some? then m
    else if i == |t| then None
    else SearchFrom(t, i + 1)
  }

  /** `nameMatch[1]`: the captured group of the first match, if the text has one.
      A capture follows an introduction phrase that starts a token and the white
      space after it, and ends at the end of the text or before `.`, `!` or `,`. */
  function NameCapture(t: string): (r: Option<string>)
    ensures r.Some? ==> exists m :: IsNameMatch(t, m) && r.value == t[m.begin..m.end]
    ensures r.Some? ==> |r.value| > 0 && forall j :: 0 <= j < |r.value| ==> IsNameChar(r.value[j])
  {
    match SearchFrom(t, 0)
    case None => None
    case Some(m) => Some(t[m.begin..m.end])
  }

  /** An introduction phrase written out, its words one space apart. */
  function IntroText(k: nat): string
    requires k < |IntroPhrases|
  {
    Join(IntroPhrases[k], " ")
  }

  /** Conversely, a text that begins with an introduction phrase in any letter case,
      one white-space character and a run of `[a-zA-Z\s]` that starts with a letter
      and ends the text or is followed by `.`, `!` or `,` is matched at the start, and
      the capture is that run. */
  lemma IntroducedName(t: string, k: nat, e: nat)
    requires k < |IntroPhrases|
    requires |IntroText(k)| + 1 < e <= |t|
    requires Lower(t[..|IntroText(k)|]) == IntroText(k)
    requires IsSpace(t[|IntroText(k)|]) && IsLetter(t[|IntroText(k)| + 1])
    requires forall i :: |IntroText(k)| + 1 < i < e ==> IsNameChar(t[i])
    requires e == |t| || t[e] == '.' || t[e] == '!' || t[e] == ','
    ensures NameCapture(t) == Some(t[|IntroText(k)| + 1..e])
  {
    var e0 := |IntroText(k)|;
    IntroMatchesAtStart(k, t);
    EarlierPhrasesFail(k, t);
    CaptureOfName(t, e0, e);
    var m := NameMatch(0, k, e0, e0 + 1, e);
    assert IntroAt(t, 0, k) == Some(m);
    IntroAtSkips(t, 0, 0, k);
    assert StartAt(t, 0) == Some(m);
    assert SearchFrom(t, 0) == Some(m);
  }

  /** In particular "I'm Ada", "my name is Ada Lovelace." and the like: a phrase in
      any letter case, a space, a name that starts with a letter, and then nothing or
      one of `.`, `!`, `,` give the name. */
  lemma IntroducedNameAlone(k: nat, intro: string, name: string, stop: string)
    requires k < |IntroPhrases| && Lower(intro) == IntroText(k)
    requires |name| > 0 && IsLetter(name[0]) && forall j :: 0 <= j < |name| ==> IsNameChar(name[j])
    requires stop == "" || stop == "." || stop == "!" || stop == ","
    ensures NameCapture(intro + " " + name + stop) == Some(name)
  {
    var t := intro + " " + name + stop;
    var e0 := |intro|;
    var e := e0 + 1 + |name|;
    assert t[..e0] == intro && t[e0] == ' ' && t[e0 + 1] == name[0];
    forall i | e0 + 1 < i < e
      ensures IsNameChar(t[i])
    {
      assert t[i] == name[i - e0 - 1];
    }
    if e < |t| {
      assert t[e] == stop[0];
    }
    IntroducedName(t, k, e);
    assert t[e0 + 1..e] == name;
  }

  /** Alternatives that do not match are passed over. */
  lemma {:induction false} IntroAtSkips(t: string, q: nat, k0: nat, k: nat)
    requires q <= |t|
    requires k0 <= k <= |IntroPhrases|
    requires forall j :: k0 <= j < k ==> MatchWords(t, q, IntroPhrases[j]).None?
    ensures IntroAt(t, q, k0) == IntroAt(t, q, k)
    decreases k - k0
  {
    if k0 < k {
      IntroAtSkip(t, q, k0);
      IntroAtSkips(t, q, k0 + 1, k);
    }
  }

  /** An alternative that does not match is passed over. */
  lemma IntroAtSkip(t: string, q: nat, k: nat)
    requires q <= |t|
    requires k < |IntroPhrases|
    requires MatchWords(t, q, IntroPhrases[k]).None?
    ensures IntroAt(t, q, k) == IntroAt(t, q, k + 1)
  {
  }

  /** Phrase `k` matches at the start of a text that begins with it in any letter
      case. */
  lemma IntroMatchesAtStart(k: nat, t: string)
    requires k < |IntroPhrases|
    requires |IntroText(k)| <= |t|
    requires Lower(t[..|IntroText(k)|]) == IntroText(k)
    ensures MatchWords(t, 0, IntroPhrases[k]) == Some(|IntroText(k)|)
  {
    IntroWordsLower(k);
    WordsMatchAtStart(t, IntroPhrases[k]);
  }

  /** Words written one space apart at the start, in any letter case, match there. */
  lemma WordsMatchAtStart(t: string, words: seq<string>)
    requires |words| > 0 && forall j :: 0 <= j < |words| ==> LowerWord(words[j])
    requires |Join(words, " ")| <= |t|
    requires Lower(t[..|Join(words, " ")|]) == Join(words, " ")
    ensures MatchWords(t, 0, words) == Some(|Join(words, " ")|)
  {
    assert t[0..|Join(words, " ")|] == t[..|Join(words, " ")|];
    SpacedWordsMatch(t, 0, words);
  }

  /** A non-empty word without white space or capitals. */
  predicate LowerWord(w: string) {
    && |w| > 0
    && forall i :: 0 <= i < |w| ==> !IsSpace(w[i]) && !IsUpperLetter(w[i])
  }

  lemma IntroWordsLower(k: nat)
    requires k < |IntroPhrases|
    ensures |IntroPhrases[k]| > 0
    ensures forall j :: 0 <= j < |IntroPhrases[k]| ==> LowerWord(IntroPhrases[k][j])
  {
  }

  /** Words written one space apart from `q`, in any letter case, match the
      alternative made of them. */
  lemma {:induction false} SpacedWordsMatch(t: string, q: nat, words: seq<string>)
    requires |words| > 0 && forall j :: 0 <= j < |words| ==> LowerWord(words[j])
    requires q + |Join(words, " ")| <= |t|
    requires Lower(t[q..q + |Join(words, " ")|]) == Join(words, " ")
    ensures MatchWords(t, q, words) == Some(q + |Join(words, " ")|)
    decreases |words|
  {
    var w := words[0];
    if |words| == 1 {
      assert Join(words, " ") == w;
    } else {
      var more := Join(words[1..], " ");
      assert Join(words, " ") == w + " " + more;
      LowerParts(t, q, w, " " + more);
      LowerParts(t, q + |w|, " ", more);
      JoinStartsWithFirst(words[1..], " ");
      GapOfOneSpace(t, q + |w|, more, words[1]);
      SpacedWordsMatch(t, q + |w| + 1, words[1..]);
      MatchWordsStep(t, q, words);
    }
  }

  /** Where `t` from `q` reads `a + b` ignoring case, it reads `a` from `q` and `b`
      after it. */
  lemma LowerParts(t: string, q: nat, a: string, b: string)
    requires q + |a| + |b| <= |t| && Lower(t[q..q + |a| + |b|]) == a + b
    ensures Lower(t[q..q + |a|]) == a && Lower(t[q + |a|..q + |a| + |b|]) == b
  {
    var whole := Lower(t[q..q + |a| + |b|]);
    forall i | 0 <= i < |a|
      ensures Lower(t[q..q + |a|])[i] == a[i]
    {
      assert whole[i] == LowerChar(t[q + i]);
    }
    forall i | 0 <= i < |b|
      ensures Lower(t[q + |a|..q + |a| + |b|])[i] == b[i]
    {
      assert whole[|a| + i] == LowerChar(t[q + |a| + i]);
    }
  }

  /** A white-space character followed by a word that starts with a non-space is a
      white-space run of length one. */
  lemma GapOfOneSpace(t: string, p: nat, more: string, w: string)
    requires p + 1 + |more| <= |t|
    requires Lower(t[p..p + 1]) == " " && Lower(t[p + 1..p + 1 + |more|]) == more
    requires LowerWord(w) && |w| <= |more| && more[..|w|] == w
    ensures SpaceRunEnd(t, p) == p + 1
  {
    assert Lower(t[p..p + 1])[0] == LowerChar(t[p]);
    assert Lower(t[p + 1..p + 1 + |more|])[0] == LowerChar(t[p + 1]) == w[0];
  }

  /** One step of `MatchWords`: after a matching first word and white space, the
      rest of the words are matched from the end of that white space. */
  lemma MatchWordsStep(t: string, q: nat, words: seq<string>)
    requires q <= |t| && |words| > 1 && MatchesAt(t, q, words[0])
    requires SpaceRunEnd(t, q + |words[0]|) > q + |words[0]|
    ensures MatchWords(t, q, words) == MatchWords(t, SpaceRunEnd(t, q + |words[0]|), words[1..])
  {
  }

  /** A joined list begins with its first part. */
  lemma JoinStartsWithFirst(parts: seq<string>, sep: string)
    requires |parts| > 0
    ensures |parts[0]| <= |Join(parts, sep)| && Join(parts, sep)[..|parts[0]|] == parts[0]
  {
  }

  /** No alternative before phrase `k` matches at the start of `t`. */
  predicate NoEarlierPhrase(t: string, k: nat)
    requires k <= |IntroPhrases|
  {
    forall j :: 0 <= j < k ==> MatchWords(t, 0, IntroPhrases[j]).None?
  }

  /** No alternative before phrase `k` matches at the start of a text that begins
      with phrase `k` in any letter case. */
  lemma EarlierPhrasesFail(k: nat, t: string)
    requires k < |IntroPhrases|
    requires |IntroText(k)| <= |t|
    requires Lower(t[..|IntroText(k)|]) == IntroText(k)
    ensures NoEarlierPhrase(t, k)
  {
    var n := |IntroText(k)|;
    if k == 2 {
      assert IntroText(2) == "i am";
      assert LowerChar(t[1]) == Lower(t[..n])[1] == ' ';
      SecondCharDiffers(t, "i'm");
      SecondCharDiffers(t, "i\U{2019}m");
    } else if k == 3 {
      assert IntroText(3) == "my name is";
      assert LowerChar(t[0]) == Lower(t[..n])[0] == 'm';
      FirstCharDiffers(t, "i'm");
      FirstCharDiffers(t, "i\U{2019}m");
      FirstCharDiffers(t, "i");
    } else if k == 4 {
      assert IntroText(4) == "call me";
      assert LowerChar(t[0]) == Lower(t[..n])[0] == 'c';
      FirstCharDiffers(t, "i'm");
      FirstCharDiffers(t, "i\U{2019}m");
      FirstCharDiffers(t, "i");
      FirstCharDiffers(t, "my");
    } else if k == 1 {
      assert IntroText(1) == "i\U{2019}m";
      assert LowerChar(t[1]) == Lower(t[..n])[1] == '\U{2019}';
      SecondCharDiffers(t, "i'm");
    }
  }

  lemma FirstCharDiffers(t: string, w: string)
    requires |t| > 0 && |w| > 0 && LowerChar(t[0]) != w[0]
    ensures !MatchesAt(t, 0, w)
  {
  }

  lemma SecondCharDiffers(t: string, w: string)
    requires |t| > 1 && |w| > 1 && LowerChar(t[1]) != w[1]
    ensures !MatchesAt(t, 0, w)
  {
  }

  /** After white space at `e0`, a run of `[a-zA-Z\s]` that starts with a letter and
      ends the text or ends before `.`, `!` or `,` is captured whole. */
  lemma CaptureOfName(t: string, e0: nat, e: nat)
    requires e0 + 1 < e <= |t| && IsSpace(t[e0]) && IsLetter(t[e0 + 1])
    requires forall i :: e0 + 1 < i < e ==> IsNameChar(t[i])
    requires e == |t| || t[e] == '.' || t[e] == '!' || t[e] == ','
    ensures CaptureAfter(t, e0) == Some((e0 + 1, e))
  {
    assert SpaceRunEnd(t, e0) == e0 + 1;
    NameRunOver(t, e0 + 1, e);
  }

  /** The `[a-zA-Z\s]` run from `q` ends at `e` when every character up to `e` is in
      the class and the one at `e` is not. */
  lemma {:induction false} NameRunOver(t: string, q: nat, e: nat)
    requires q <= e <= |t|
    requires forall i :: q <= i < e ==> IsNameChar(t[i])
    requires e == |t| || !IsNameChar(t[e])
    ensures NameRunEnd(t, q) == e
    decreases e - q
  {
    if q < e {
      NameRunOver(t, q + 1, e);
    }
  }

  /** Every match of the expression is found: the search succeeds, and the match it
      takes starts no later than the given one (the search is leftmost-first). */
  lemma PresentIsFound(t: string, m: NameMatch)
    requires IsNameMatch(t, m)
    ensures NameCapture(t).Some?
    ensures exists f :: IsNameMatch(t, f) && f.start <= m.start && NameCapture(t) == Some(t[f.begin..f.end])
  {
    AlternativeMatches(t, m);
    IntroAtReaches(t, m.start, 0, m.phrase);
    FoundAtToken(t, m.start);
    var f := SearchFrom(t, 0).value;
    assert NameCapture(t) == Some(t[f.begin..f.end]);
  }

  /** A match was found, and it starts at or before `s`. */
  predicate FoundBy(r: Option<NameMatch>, s: nat) {
    r.Some? && r.value.start <= s
  }

  /** The match's own alternative matches at its start, and its tail is found. */
  lemma AlternativeMatches(t: string, m: NameMatch)
    requires MatchesFrom(t, m)
    ensures MatchWords(t, m.start, IntroPhrases[m.phrase]) == Some(m.introEnd)
    ensures CaptureAfter(t, m.introEnd).Some?
  {
    IntroWordsLower(m.phrase);
    PhraseMatched(t, m.start, IntroPhrases[m.phrase], m.introEnd);
    CaptureFound(t, m);
  }

  /** Where some alternative matches at a token start `s`, the search from the
      start of the text finds a match by `s`. */
  lemma FoundAtToken(t: string, s: nat)
    requires s < |t|
    requires TokenStart(t, s)
    requires IntroAt(t, s, 0).Some?
    ensures FoundBy(SearchFrom(t, 0), s)
  {
    if s == 0 {
      StartAtText(t);
      SearchHit(t, 0);
    } else {
      StartAtSpace(t, s - 1);
      SearchHit(t, s - 1);
      SearchReaches(t, s - 1, s);
    }
  }

  /** At the start of the text the anchored attempt is made. */
  lemma StartAtText(t: string)
    requires IntroAt(t, 0, 0).Some?
    ensures FoundBy(StartAt(t, 0), 0)
  {
  }

  /** After a white-space character the attempt at the next position is made, unless
      the anchored one already matched. */
  lemma StartAtSpace(t: string, i: nat)
    requires i < |t|
    requires IsSpace(t[i])
    requires IntroAt(t, i + 1, 0).Some?
    ensures FoundBy(StartAt(t, i), i + 1)
  {
  }

  /** A search whose attempt at `i` succeeds takes that match. */
  lemma SearchHit(t: string, i: nat)
    requires i <= |t| && StartAt(t, i).Some?
    ensures SearchFrom(t, i) == StartAt(t, i)
  {
  }

  /** The search from `i` is the search from `i + 1`, unless it finds a match by
      `i + 1`. */
  lemma SearchStep(t: string, i: nat)
    requires i < |t|
    ensures SearchFrom(t, i) == SearchFrom(t, i + 1) || FoundBy(SearchFrom(t, i), i + 1)
  {
  }

  /** The search from the start finds a match by `s` when the search from `j` does. */
  lemma SearchReaches(t: string, j: nat, s: nat)
    requires j <= |t|
    requires j <= s
    requires FoundBy(SearchFrom(t, j), s)
    ensures FoundBy(SearchFrom(t, 0), s)
  {
    var f := (k: nat) => SearchOrNone(t, k);
    SearchSteps(t, f, j);
    FoundEarlier(f, 0, j, s);
  }

  /** The search from any position, or nothing past the end. */
  function SearchOrNone(t: string, k: nat): Option<NameMatch> {
    if k <= |t| then SearchFrom(t, k) else None
  }

  /** `SearchStep` at every position before `j`. */
  lemma SearchSteps(t: string, f: nat -> Option<NameMatch>, j: nat)
    requires j <= |t|
    requires forall k: nat :: f(k) == SearchOrNone(t, k)
    ensures forall k: nat :: k < j ==> f(k) == f(k + 1) || FoundBy(f(k), k + 1)
  {
    forall k: nat | k < j
      ensures f(k) == f(k + 1) || FoundBy(f(k), k + 1)
    {
      SearchStep(t, k);
    }
  }

  /** A search that, from each position before `j`, either finds a match by the next
      position or defers to it, finds one by `s` when it does so from `j`. */
  lemma {:induction false} FoundEarlier(f: nat -> Option<NameMatch>, i: nat, j: nat, s: nat)
    requires i <= j <= s
    requires forall k: nat :: i <= k < j ==> f(k) == f(k + 1) || FoundBy(f(k), k + 1)
    requires FoundBy(f(j), s)
    ensures FoundBy(f(i), s)
    decreases j - i
  {
    if i < j {
      FoundEarlier(f, i + 1, j, s);
    }
  }

  /** The alternatives from `k` on include one, `p`, whose words and tail match at
      `q`, so trying them there succeeds. */
  lemma {:induction false} IntroAtReaches(t: string, q: nat, k: nat, p: nat)
    requires q <= |t|
    requires k <= p < |IntroPhrases|
    requires MatchWords(t, q, IntroPhrases[p]).Some?
    requires CaptureAfter(t, MatchWords(t, q, IntroPhrases[p]).value).Some?
    ensures IntroAt(t, q, k).Some?
    decreases p - k
  {
    if k < p {
      IntroAtStep(t, q, k);
      IntroAtReaches(t, q, k + 1, p);
    } else {
      IntroAtHit(t, q, k);
    }
  }

  /** Trying the alternatives from `k` either succeeds or goes on at `k + 1`. */
  lemma IntroAtStep(t: string, q: nat, k: nat)
    requires q <= |t|
    requires k < |IntroPhrases|
    ensures IntroAt(t, q, k).Some? || IntroAt(t, q, k) == IntroAt(t, q, k + 1)
  {
  }

  /** An alternative whose words and tail match makes the attempt succeed. */
  lemma IntroAtHit(t: string, q: nat, k: nat)
    requires q <= |t|
    requires k < |IntroPhrases|
    requires MatchWords(t, q, IntroPhrases[k]).Some?
    requires CaptureAfter(t, MatchWords(t, q, IntroPhrases[k]).value).Some?
    ensures IntroAt(t, q, k).Some?
  {
  }

  /** Where the words of an alternative are written with any white-space gaps,
      `MatchWords` finds them: each word begins with a non-space, so the gap before
      it is the whole white-space run. */
  lemma {:induction false} PhraseMatched(t: string, q: nat, words: seq<string>, e: nat)
    requires q <= |t|
    requires forall j :: 0 <= j < |words| ==> LowerWord(words[j])
    requires PhraseAt(t, q, words, e)
    ensures MatchWords(t, q, words) == Some(e)
    decreases |words|
  {
    if |words| > 1 {
      var w := PhraseGap(t, q, words, e);
      MatchWordsStep(t, q, words);
      PhraseMatched(t, w, words[1..], e);
    }
  }

  /** The gap after the first word of a phrase written with white-space gaps is the
      whole white-space run there. */
  lemma PhraseGap(t: string, q: nat, words: seq<string>, e: nat) returns (w: nat)
    requires q <= |t|
    requires |words| > 1 && forall j :: 0 <= j < |words| ==> LowerWord(words[j])
    requires PhraseAt(t, q, words, e)
    ensures MatchesAt(t, q, words[0]) && q + |words[0]| < w <= |t|
    ensures SpaceRunEnd(t, q + |words[0]|) == w && PhraseAt(t, w, words[1..], e)
  {
    var g := q + |words[0]|;
    w :| g < w <= |t| && (forall i :: g <= i < w ==> IsSpace(t[i])) && PhraseAt(t, w, words[1..], e);
    assert MatchesAt(t, w, words[1]);
    assert LowerChar(t[w]) == words[1][0] by {
      assert Lower(t[w..w + |words[1]|])[0] == LowerChar(t[w]);
    }
    SpaceRunOver(t, g, w);
  }

  /** The tail of a match is found from the end of its phrase. */
  lemma CaptureFound(t: string, m: NameMatch)
    requires MatchesFrom(t, m)
    ensures CaptureAfter(t, m.introEnd).Some?
  {
    var w := SpaceRunEnd(t, m.introEnd);
    SpaceRunAtLeast(t, m.introEnd, m.begin);
    assert w <= m.end;
    NameRunOver(t, w, m.end);
  }

  /** The white-space run from `q` ends at `e` when every character up to `e` is
      white space and the one at `e` is not. */
  lemma {:induction false} SpaceRunOver(t: string, q: nat, e: nat)
    requires q <= e <= |t|
    requires forall i :: q <= i < e ==> IsSpace(t[i])
    requires e == |t| || !IsSpace(t[e])
    ensures SpaceRunEnd(t, q) == e
    decreases e - q
  {
    if q < e {
      SpaceRunOver(t, q + 1, e);
    }
  }

  /** The white-space run from `q` reaches at least `e` when everything up to `e` is
      white space. */
  lemma {:induction false} SpaceRunAtLeast(t: string, q: nat, e: nat)
    requires q <= e <= |t|
    requires forall i :: q <= i < e ==> IsSpace(t[i])
    ensures SpaceRunEnd(t, q) >= e
    decreases e - q
  {
    if q < e {
      SpaceRunAtLeast(t, q + 1, e);
    }
  }

  /** One word of a name: first character upper-cased, the rest lower-cased. */
  function TitleWord(w: string): (r: string)
    ensures |r| == |w|
    ensures forall i :: 0 <= i < |w| ==> r[i] == (if i == 0 then UpperChar(w[0]) else LowerChar(w[i]))
  {
    if |w| == 0 then "" else [UpperChar(w[0])] + Lower(w[1..])
  }

  /** `name.split(' ').map(TitleWord).join(' ')`. */
  function TitleCase(s: string): (r: string)
    ensures |r| == |s|
    decreases |s|
  {
    match IndexOf(s, ' ')
    case None => TitleWord(s)
    case Some(k) => TitleWord(s[..k]) + " " + TitleCase(s[k + 1..])
  }

  /** Split, map and join amount to a per-character rule: a character that begins
      the name or follows a space is upper-cased, every other one lower-cased. */
  lemma {:induction false} TitleCaseChars(s: string)
    ensures forall i :: 0 <= i < |s| ==>
      TitleCase(s)[i] == (if i == 0 || s[i - 1] == ' ' then UpperChar(s[i]) else LowerChar(s[i]))
    decreases |s|
  {
    var r := TitleCase(s);
    match IndexOf(s, ' ')
    case None =>
    case Some(k) =>
      var head := TitleWord(s[..k]);
      var tail := s[k + 1..];
      TitleCaseChars(tail);
      assert r == head + " " + TitleCase(tail);
      forall i | 0 <= i < |s|
        ensures r[i] == (if i == 0 || s[i - 1] == ' ' then UpperChar(s[i]) else LowerChar(s[i]))
      {
        if i < k {
          assert r[i] == head[i];
        } else if i == k {
          assert r[i] == ' ' == s[i];
        } else {
          assert r[i] == TitleCase(tail)[i - k - 1];
          assert tail[i - k - 1] == s[i];
          if i > k + 1 {
            assert tail[i - k - 2] == s[i - 1];
          }
        }
      }
  }

  lemma CaseChar(c: char)
    ensures LowerChar(UpperChar(c)) == LowerChar(c)
    ensures LowerChar(LowerChar(c)) == LowerChar(c)
  {
  }

  /** Title-casing changes only case, so the black-list test sees the same text. */
  lemma TitleCaseLower(s: string)
    ensures Lower(TitleCase(s)) == Lower(s)
  {
    var r := TitleCase(s);
    TitleCaseChars(s);
    forall i | 0 <= i < |s|
      ensures Lower(r)[i] == Lower(s)[i]
    {
      assert Lower(r)[i] == LowerChar(r[i]);
      assert Lower(s)[i] == LowerChar(s[i]);
      CaseChar(s[i]);
      if i == 0 || s[i - 1] == ' ' {
        assert r[i] == UpperChar(s[i]);
      } else {
        assert r[i] == LowerChar(s[i]);
      }
    }
    assert |Lower(r)| == |Lower(s)|;
  }

  // ---------------------------------------------------------------------------
  // Role extraction: /(?:^|\s)(?:teacher|educator|professor|instructor)/i, then
  // /(?:^|\s)(?:student|learner|pupil)/i.
  // ---------------------------------------------------------------------------

  const TeacherWords: seq<string> := ["teacher", "educator", "professor", "instructor"]
  const StudentWords: seq<string> := ["student", "learner", "pupil"]

  /** Position `p` begins the text or follows a white-space character. */
  predicate TokenStart(t: string, p: nat) {
    p == 0 || (p <= |t| && IsSpace(t[p - 1]))
  }

  /** One of `words` begins at position `p`, ignoring case. */
  predicate WordAt(t: string, p: nat, words: seq<string>) {
    exists j :: 0 <= j < |words| && MatchesAt(t, p, words[j])
  }

  /** The search of `(?:^|\s)(?:w1|w2|...)/i` from position `p` on. */
  predicate HasWordFrom(t: string, words: seq<string>, p: nat)
    requires p <= |t|
    ensures HasWordFrom(t, words, p) <==>
      exists i :: p <= i <= |t| && TokenStart(t, i) && WordAt(t, i, words)
    decreases |t| - p
  {
    (TokenStart(t, p) && WordAt(t, p, words)) || (p < |t| && HasWordFrom(t, words, p + 1))
  }

  datatype Identity = Identity(name: Option<string>, role: Option<Role>)

  /** `extractIdentity`: a title-cased name unless the capture is a stock phrase,
      and a role, teacher vocabulary taking precedence over student vocabulary. */
  function ExtractIdentity(text: string): (r: Identity)
    ensures r.name.Some? <==>
      NameCapture(Trim(text)).Some? && Lower(Trim(NameCapture(Trim(text)).value)) !in Blacklist
    ensures r.name.Some? ==> r.name.value == TitleCase(Trim(NameCapture(Trim(text)).value))
    ensures r.role == Some(Teacher) <==>
      exists p :: 0 <= p <= |Trim(text)| && TokenStart(Trim(text), p) && WordAt(Trim(text), p, TeacherWords)
    ensures r.role == Some(Student) <==>
      && (forall p :: 0 <= p <= |Trim(text)| && TokenStart(Trim(text), p) ==> !WordAt(Trim(text), p, TeacherWords))
      && exists p :: 0 <= p <= |Trim(text)| && TokenStart(Trim(text), p) && WordAt(Trim(text), p, StudentWords)
  {
    var t := Trim(text);
    var name :=
      match NameCapture(t)
      case None => None
      case Some(c) =>
        var n := Trim(c);
        if Lower(n) in Blacklist then None else Some(TitleCase(n));
    var role :=
      if HasWordFrom(t, TeacherWords, 0) then Some(Teacher)
      else if HasWordFrom(t, StudentWords, 0) then Some(Student)
      else None;
    Identity(name, role)
  }

  /** An accepted name, compared without case, is never one of the stock phrases. */
  lemma AcceptedNameNotBlacklisted(text: string)
    ensures ExtractIdentity(text).name.Some? ==> Lower(ExtractIdentity(text).name.value) !in Blacklist
  {
    var c := NameCapture(Trim(text));
    if c.Some? {
      TitleCaseLower(Trim(c.value));
    }
  }

  // ---------------------------------------------------------------------------
  // Bare role answer and intent tests.
  // ---------------------------------------------------------------------------

  /** `parseSimpleRole`: substring tests on the lower-cased text, teacher first. */
  function ParseSimpleRole(text: string): (r: Option<Role>)
    ensures r == Some(Teacher) <==> Contains(Lower(text), "teacher") || Contains(Lower(text), "educator")
    ensures r.None? <==>
      !Contains(Lower(text), "teacher") && !Contains(Lower(text), "educator")
      && !Contains(Lower(text), "student") && !Contains(Lower(text), "learner")
  {
    var t := Lower(text);
    if Contains(t, "teacher") || Contains(t, "educator") then Some(Teacher)
    else if Contains(t, "student") || Contains(t, "learner") then Some(Student)
    else None
  }

  const TaskKeywords: seq<string> :=
    [ "generate", "create", "make", "analyze", "check", "quiz", "test",
      "practice", "questions", "exam", "exercises", "grade", "assess", "solve" ]

  /** `isTaskIntent`: the trimmed, lower-cased text contains a task keyword. */
  predicate IsTaskIntent(text: string) {
    var t := Lower(Trim(text));
    exists i :: 0 <= i < |TaskKeywords| && Contains(t, TaskKeywords[i])
  }

  const Greetings: seq<string> :=
    ["hi", "hello", "hey", "greetings", "yo", "hiya", "sup", "howdy", "good morning"]
  const IdentityStarts: seq<string> := ["i am ", "im ", "my name is ", "call me "]
  const Phatic: seq<string> := ["ok", "okay", "thanks", "thank you", "cool", "nice"]
  const MetaQuestions: seq<string> :=
    ["who are you", "what is eduvane", "what is this", "what can you do"]

  /** `t.replace(/[^\w\s]/g, '')`: keeps word characters and white space, in order. */
  function StripNonWord(t: string): (r: string)
    ensures |r| <= |t|
    ensures forall i :: 0 <= i < |r| ==> IsWordChar(r[i]) || IsSpace(r[i])
    ensures forall i :: 0 <= i < |t| && (IsWordChar(t[i]) || IsSpace(t[i])) ==> |r| > 0
    decreases |t|
  {
    if |t| == 0 then ""
    else if IsWordChar(t[0]) || IsSpace(t[0]) then [t[0]] + StripNonWord(t[1..])
    else StripNonWord(t[1..])
  }

  /** The punctuation-free form the greeting, identity and phatic tests look at. */
  function Cleaned(text: string): string {
    Trim(StripNonWord(Lower(Trim(text))))
  }

  predicate GreetingMatch(clean: string) {
    exists i :: 0 <= i < |Greetings| && (clean == Greetings[i] || StartsWith(clean, Greetings[i] + " "))
  }

  predicate IdentityStartMatch(clean: string) {
    exists i :: 0 <= i < |IdentityStarts| &&
      (StartsWith(clean, IdentityStarts[i]) || Contains(clean, " " + IdentityStarts[i]))
  }

  /** The meta-questions are looked for in the lower-cased text before punctuation
      is removed. */
  predicate MetaQuestionMatch(t: string) {
    exists i :: 0 <= i < |MetaQuestions| && Contains(t, MetaQuestions[i])
  }

  /** `isConversationalIntent`. */
  predicate IsConversationalIntent(text: string) {
    var clean := Cleaned(text);
    GreetingMatch(clean) || IdentityStartMatch(clean) || clean in Phatic
      || MetaQuestionMatch(Lower(Trim(text)))
  }

  // ---------------------------------------------------------------------------
  // Properties
  // ---------------------------------------------------------------------------

  lemma KeywordsHaveNoSpace()
    ensures forall i :: 0 <= i < |TaskKeywords| ==> |TaskKeywords[i]| > 0 && NoSpace(TaskKeywords[i])
  {
  }

  /** The trim in `isTaskIntent` is immaterial: the text is a task exactly when its
      lower-cased form contains a keyword anywhere. */
  lemma TaskIntentIgnoresTrim(text: string)
    ensures IsTaskIntent(text) <==>
      exists i :: 0 <= i < |TaskKeywords| && Contains(Lower(text), TaskKeywords[i])
  {
    LowerTrim(text);
    KeywordsHaveNoSpace();
    forall i | 0 <= i < |TaskKeywords|
      ensures Contains(Lower(Trim(text)), TaskKeywords[i]) <==> Contains(Lower(text), TaskKeywords[i])
    {
      ContainsTrim(Lower(text), TaskKeywords[i]);
    }
  }

  lemma LowerLowerTrim(text: string)
    ensures Lower(Trim(Lower(text))) == Lower(Trim(text))
  {
    LowerTrim(Lower(text));
    LowerIdempotent(text);
    LowerTrim(text);
    LowerIdempotent(Trim(text));
  }

  /** All three intent tests ignore ASCII case. */
  lemma ClassifiersIgnoreCase(text: string)
    ensures IsTaskIntent(Lower(text)) == IsTaskIntent(text)
    ensures IsConversationalIntent(Lower(text)) == IsConversationalIntent(text)
    ensures ParseSimpleRole(Lower(text)) == ParseSimpleRole(text)
  {
    assert IsTaskIntent(Lower(text)) == IsTaskIntent(text) by { LowerLowerTrim(text); }
    assert IsConversationalIntent(Lower(text)) == IsConversationalIntent(text) by {
      LowerLowerTrim(text);
      LowerIdempotent(text);
    }
    assert ParseSimpleRole(Lower(text)) == ParseSimpleRole(text) by { LowerIdempotent(text); }
  }

  /** A lower-case word or phrase with no white space at either end. */
  predicate Plain(w: string) {
    && |w| > 0 && !IsSpace(w[0]) && !IsSpace(w[|w| - 1])
    && forall k :: 0 <= k < |w| ==> IsLowerLetter(w[k]) || w[k] == ' '
  }

  lemma GreetingsArePlain()
    ensures forall i :: 0 <= i < |Greetings| ==> Plain(Greetings[i])
  {
  }

  /** Punctuation after a greeting does not hide it: "hello!" and "good morning..."
      are conversational, because the punctuation is stripped before the comparison. */
  lemma GreetingWithPunctuation(i: nat, punct: string)
    requires i < |Greetings|
    requires forall k :: 0 <= k < |punct| ==> !IsWordChar(punct[k]) && !IsSpace(punct[k])
    ensures IsConversationalIntent(Greetings[i] + punct)
  {
    GreetingsArePlain();
    var g := Greetings[i];
    var s := g + punct;
    assert !IsSpace(s[0]) && !IsSpace(s[|s| - 1]);
    assert Trim(s) == s;
    assert Lower(s) == s;
    StripNonWordKeeps(g, punct);
    assert Trim(g) == g;
    assert Cleaned(s) == g;
    assert GreetingMatch(g);
  }

  /** Stripping looks at one character at a time: it distributes over
      concatenation. */
  lemma {:induction false} StripNonWordAppend(a: string, b: string)
    ensures StripNonWord(a + b) == StripNonWord(a) + StripNonWord(b)
    decreases |a|
  {
    if |a| == 0 {
      assert a + b == b;
    } else {
      assert (a + b)[1..] == a[1..] + b;
      StripNonWordAppend(a[1..], b);
    }
  }

  /** Appending one character keeps it exactly when it is a word character or
      white space. */
  lemma StripNonWordSnoc(a: string, c: char)
    ensures StripNonWord(a + [c]) == StripNonWord(a) + (if IsWordChar(c) || IsSpace(c) then [c] else [])
  {
    StripNonWordAppend(a, [c]);
    assert [c][1..] == [];
  }

  /** Stripping keeps a run of word and space characters and drops a run of
      punctuation after it. */
  lemma {:induction false} StripNonWordKeeps(w: string, punct: string)
    requires forall k :: 0 <= k < |w| ==> IsWordChar(w[k]) || IsSpace(w[k])
    requires forall k :: 0 <= k < |punct| ==> !IsWordChar(punct[k]) && !IsSpace(punct[k])
    ensures StripNonWord(w + punct) == w
    decreases |w| + |punct|
  {
    if |w| > 0 {
      assert (w + punct)[1..] == w[1..] + punct;
      StripNonWordKeeps(w[1..], punct);
    } else if |punct| > 0 {
      assert w + punct == punct;
      assert punct[1..] == w + punct[1..];
      StripNonWordKeeps(w, punct[1..]);
    } else {
      assert w + punct == "";
    }
  }

  /** Role detection in `extractIdentity` implies the bare-answer parser agrees for
      the words both know: a teacher word at a token start is a teacher answer. */
  lemma {:induction false} RoleWordIsContained(t: string, p: nat, w: string)
    requires MatchesAt(t, p, w)
    ensures Contains(Lower(t), w)
    decreases p
  {
    if p == 0 {
      assert Lower(t)[..|w|] == Lower(t[..|w|]);
    } else {
      assert Lower(t)[1..] == Lower(t[1..]);
      assert t[1..][p - 1..p - 1 + |w|] == t[p..p + |w|];
      RoleWordIsContained(t[1..], p - 1, w);
    }
  }
}
