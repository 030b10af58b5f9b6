/**
 * The JavaScript string operations the voice parser relies on, over `string` (a `seq<char>`):
 * `toLowerCase`, `includes`, `replace` with a string pattern (first occurrence), `trim`,
 * and the global regular-expression replacements `\bword\b` (whole word), a literal phrase,
 * and `\s{2,}` (runs of whitespace).
 */
module Text {
  import opened Wrappers

  // ---------------------------------------------------------------- characters

  /** The characters JavaScript's `\s` matches and `trim` removes (WhiteSpace and LineTerminator). */
  predicate IsSpace(c: char) {
    c == ' ' || c == '\t' || c == '\n' || c == '\r' || c == '\U{B}' || c == '\U{C}'
    || c == '\U{A0}' || c == '\U{1680}' || ('\U{2000}' <= c <= '\U{200A}')
    || c == '\U{2028}' || c == '\U{2029}' || c == '\U{202F}' || c == '\U{205F}'
    || c == '\U{3000}' || c == '\U{FEFF}'
  }

  /** `\d` */
  predicate IsDigit(c: char) {
    '0' <= c <= '9'
  }

  /** `\w`, the characters on one side of a `\b` word boundary. */
  predicate IsWordChar(c: char) {
    'a' <= c <= 'z' || 'A' <= c <= 'Z' || IsDigit(c) || c == '_'
  }

  predicate IsUpper(c: char) {
    'A' <= c <= 'Z'
  }

  /** The letter `c` in lower case: a capital becomes the small letter at the same place in the alphabet. */
  function ToLowerChar(c: char): (r: char)
    ensures !IsUpper(r)
    ensures !IsUpper(c) ==> r == c
    ensures IsUpper(c) ==> 'a' <= r <= 'z' && r as int - 'a' as int == c as int - 'A' as int
  {
    if IsUpper(c) then (c as int + 32) as char else c
  }

  function ToUpperChar(c: char): (r: char)
    ensures IsSpace(r) <==> IsSpace(c)
    ensures !('a' <= c <= 'z') ==> r == c
  {
    if 'a' <= c <= 'z' then (c as int - 32) as char else c
  }

  /** No upper-case letter: what `toLowerCase` guarantees. */
  predicate Lowercase(s: string) {
    forall i :: 0 <= i < |s| ==> !IsUpper(s[i])
  }

  /** `s.toLowerCase()`, for the letters A to Z. */
  function ToLower(s: string): (r: string)
    ensures |r| == |s| && Lowercase(r)
    ensures forall i :: 0 <= i < |s| && !IsUpper(s[i]) ==> r[i] == s[i]
    ensures forall i :: 0 <= i < |s| && IsUpper(s[i]) ==> r[i] as int - 'a' as int == s[i] as int - 'A' as int
  {
    seq(|s|, i requires 0 <= i < |s| => ToLowerChar(s[i]))
  }

  // ---------------------------------------------------------------- substrings

  predicate OccursAt(s: string, p: string, i: int) {
    0 <= i && i + |p| <= |s| && s[i..i + |p|] == p
  }

  /** The first occurrence of `p` in `s` at or after `k`. */
  function IndexFrom(s: string, p: string, k: nat): (r: Option<nat>)
    requires k <= |s|
    decreases |s| - k
    ensures r.Some? ==> k <= r.value && OccursAt(s, p, r.value)
    ensures r.Some? ==> forall j :: k <= j < r.value ==> !OccursAt(s, p, j)
    ensures r.None? ==> forall j :: k <= j ==> !OccursAt(s, p, j)
  {
    if k + |p| > |s| then None
    else if s[k..k + |p|] == p then Some(k)
    else assert |p| > 0; IndexFrom(s, p, k + 1)
  }

  /** `s.indexOf(p)`, with `None` for -1. */
  function IndexOf(s: string, p: string): (r: Option<nat>)
    ensures r.Some? ==> OccursAt(s, p, r.value) && forall j :: 0 <= j < r.value ==> !OccursAt(s, p, j)
    ensures r.None? ==> forall j :: !OccursAt(s, p, j)
  {
    IndexFrom(s, p, 0)
  }

  /** `s.includes(p)` */
  predicate Contains(s: string, p: string)
    ensures Contains(s, p) <==> exists i :: OccursAt(s, p, i)
  {
    IndexOf(s, p).Some?
  }

  /** An occurrence of `outer` carries an occurrence of each of its parts. */
  lemma OccursPart(s: string, outer: string, inner: string, i: int, off: nat)
    requires OccursAt(s, outer, i) && OccursAt(outer, inner, off)
    ensures OccursAt(s, inner, i + off)
  {
    forall k | 0 <= k < |inner|
      ensures s[i + off + k] == inner[k]
    {
      assert s[i..i + |outer|][off + k] == outer[off + k];
      assert outer[off..off + |inner|][k] == inner[k];
    }
    assert s[i + off..i + off + |inner|] == inner;
  }

  /** Containment is transitive: a text that contains `outer` contains every part of it. */
  lemma ContainsPart(s: string, outer: string, inner: string, off: nat)
    requires OccursAt(outer, inner, off)
    requires Contains(s, outer)
    ensures Contains(s, inner)
  {
    var i :| OccursAt(s, outer, i);
    OccursPart(s, outer, inner, i, off);
  }

  /** `s.replace(p, '')` with a string pattern: only the first occurrence is removed. */
  function ReplaceFirst(s: string, p: string): (r: string)
    ensures !Contains(s, p) ==> r == s
    ensures Contains(s, p) ==> |r| + |p| == |s|
    ensures Contains(s, p) ==> var i := IndexOf(s, p).value; r == s[..i] + s[i + |p|..]
    ensures Lowercase(s) ==> Lowercase(r)
  {
    match IndexOf(s, p)
    case None => s
    case Some(i) => s[..i] + s[i + |p|..]
  }

  // ---------------------------------------------------------------- trim

  /** The number of whitespace characters `trim` removes from the front. */
  function LeadingSpace(s: string): nat {
    SpaceRunEnd(s, 0)
  }

  /** The end of `s` once the run of whitespace before `k`, but not before `lo`, is dropped. */
  function TrailingSpaceStart(s: string, lo: nat, k: nat): (e: nat)
    requires lo <= k <= |s|
    decreases k
    ensures lo <= e <= k && (e == lo || !IsSpace(s[e - 1]))
    ensures forall j :: e <= j < k ==> IsSpace(s[j])
  {
    if k > lo && IsSpace(s[k - 1]) then TrailingSpaceStart(s, lo, k - 1) else k
  }

  /** `s.trimStart()` */
  function TrimStart(s: string): (r: string)
    ensures |r| <= |s| && r == s[|s| - |r|..]
    ensures r == [] || !IsSpace(r[0])
  {
    s[LeadingSpace(s)..]
  }

  /** `s.trimEnd()` */
  function TrimEnd(s: string): (r: string)
    ensures |r| <= |s| && r == s[..|r|]
    ensures r == [] || !IsSpace(r[|r| - 1])
    ensures forall j :: |r| <= j < |s| ==> IsSpace(s[j])
    ensures Lowercase(s) ==> Lowercase(r)
  {
    SliceKeepsCase(s, 0, TrailingSpaceStart(s, 0, |s|));
    s[..TrailingSpaceStart(s, 0, |s|)]
  }

  /** Neither end is whitespace: what `trim` guarantees. */
  predicate IsTrimmed(s: string) {
    s == [] || (!IsSpace(s[0]) && !IsSpace(s[|s| - 1]))
  }

  /** `s.trim()`: the longest slice of `s` that neither starts nor ends with whitespace. */
  function Trim(s: string): (r: string)
    ensures IsTrimmed(r)
    ensures LeadingSpace(s) + |r| <= |s| && r == s[LeadingSpace(s)..LeadingSpace(s) + |r|]
    ensures IsTrimmed(s) ==> r == s
    ensures Lowercase(s) ==> Lowercase(r)
    ensures NoDoubleSpace(s) ==> NoDoubleSpace(r)
  {
    var a := LeadingSpace(s);
    var e := TrailingSpaceStart(s, a, |s|);
    SliceKeepsCase(s, a, e);
    SliceKeepsSingleSpaces(s, a, e);
    s[a..e]
  }

  /** A slice of lower-case text is lower-case. */
  lemma SliceKeepsCase(s: string, a: nat, b: nat)
    requires a <= b <= |s|
    ensures Lowercase(s) ==> Lowercase(s[a..b])
  {
  }

  /** A slice of text without a run of spaces has none. */
  lemma SliceKeepsSingleSpaces(s: string, a: nat, b: nat)
    requires a <= b <= |s|
    ensures NoDoubleSpace(s) ==> NoDoubleSpace(s[a..b])
  {
    if NoDoubleSpace(s) {
      forall i | 0 <= i < b - a && SpacePairAt(s[a..b], i)
        ensures false
      {
        assert SpacePairAt(s, a + i);
      }
    }
  }

  /** `trim` removes whitespace and nothing else, from both ends. */
  lemma TrimRemovesOnlySpace(s: string)
    ensures forall i :: 0 <= i < LeadingSpace(s) ==> IsSpace(s[i])
    ensures forall i :: LeadingSpace(s) + |Trim(s)| <= i < |s| ==> IsSpace(s[i])
  {
  }

  // ---------------------------------------------------------------- global replacement

  /** A `\b` word boundary at position `p`: a word character on exactly one side. */
  predicate Boundary(s: string, p: int) {
    (0 < p <= |s| && IsWordChar(s[p - 1])) != (0 <= p < |s| && IsWordChar(s[p]))
  }

  /** The regular expression `\bw\b` matches at `i`. */
  predicate WordAt(s: string, w: string, i: int) {
    OccursAt(s, w, i) && Boundary(s, i) && Boundary(s, i + |w|)
  }

  /** A keyword that begins and ends with a word character, as every lexicon keyword does. */
  predicate IsWord(w: string) {
    |w| > 0 && IsWordChar(w[0]) && IsWordChar(w[|w| - 1])
  }

  /** The expression being replaced matches at `i`: the whole word `p`, or the phrase `p`. */
  predicate MatchAt(s: string, p: string, wholeWord: bool, i: int) {
    if wholeWord then WordAt(s, p, i) else OccursAt(s, p, i)
  }

  /** The leftmost match at or after `i`. */
  function FirstMatchFrom(s: string, p: string, wholeWord: bool, i: nat): (r: Option<nat>)
    requires |p| > 0 && i <= |s|
    decreases |s| - i
    ensures r.Some? ==> i <= r.value && r.value + |p| <= |s| && MatchAt(s, p, wholeWord, r.value)
    ensures r.Some? ==> forall j :: i <= j < r.value ==> !MatchAt(s, p, wholeWord, j)
    ensures r.None? ==> forall j :: i <= j ==> !MatchAt(s, p, wholeWord, j)
  {
    if i == |s| then None
    else if MatchAt(s, p, wholeWord, i) then Some(i)
    else FirstMatchFrom(s, p, wholeWord, i + 1)
  }

  /**
   * What a global replacement by '' leaves of `s[i..]`: the scan goes left to right, removes each
   * match it finds and resumes after it; boundaries are judged on the original text.
   */
  function RemoveFrom(s: string, p: string, wholeWord: bool, i: nat): (r: string)
    requires |p| > 0 && i <= |s|
    decreases |s| - i
    ensures |r| <= |s| - i
  {
    if i == |s| then []
    else if MatchAt(s, p, wholeWord, i) then RemoveFrom(s, p, wholeWord, i + |p|)
    else [s[i]] + RemoveFrom(s, p, wholeWord, i + 1)
  }

  /** The removal never introduces a capital. */
  lemma {:induction false} RemoveFromKeepsCase(s: string, p: string, wholeWord: bool, i: nat)
    requires |p| > 0 && i <= |s| && Lowercase(s)
    ensures Lowercase(RemoveFrom(s, p, wholeWord, i))
    decreases |s| - i
  {
    if i < |s| {
      if MatchAt(s, p, wholeWord, i) {
        RemoveFromKeepsCase(s, p, wholeWord, i + |p|);
      } else {
        RemoveFromKeepsCase(s, p, wholeWord, i + 1);
        var rest := RemoveFrom(s, p, wholeWord, i + 1);
        assert RemoveFrom(s, p, wholeWord, i) == [s[i]] + rest;
        assert forall k :: 0 < k <= |rest| ==> ([s[i]] + rest)[k] == rest[k - 1];
      }
    }
  }

  /** Where no match starts in `[i, j)`, that stretch of text is kept as it is. */
  lemma {:induction false} RemoveFromUpTo(s: string, p: string, wholeWord: bool, i: nat, j: nat)
    requires |p| > 0 && i <= j <= |s|
    requires forall q :: i <= q < j ==> !MatchAt(s, p, wholeWord, q)
    ensures RemoveFrom(s, p, wholeWord, i) == s[i..j] + RemoveFrom(s, p, wholeWord, j)
    decreases j - i
  {
    if i < j {
      RemoveFromKeeps(s, p, wholeWord, i);
      RemoveFromUpTo(s, p, wholeWord, i + 1, j);
      var c, mid, tail := [s[i]], s[i + 1..j], RemoveFrom(s, p, wholeWord, j);
      assert s[i..j] == c + mid;
      assert c + (mid + tail) == (c + mid) + tail;
    }
  }

  /** A position where no match starts is copied to the result. */
  lemma RemoveFromKeeps(s: string, p: string, wholeWord: bool, i: nat)
    requires |p| > 0 && i < |s| && !MatchAt(s, p, wholeWord, i)
    ensures RemoveFrom(s, p, wholeWord, i) == [s[i]] + RemoveFrom(s, p, wholeWord, i + 1)
  {
  }

  /** With no match from `i` on, nothing is removed. */
  lemma RemoveFromNoMatch(s: string, p: string, wholeWord: bool, i: nat)
    requires |p| > 0 && i <= |s|
    requires forall j :: i <= j ==> !MatchAt(s, p, wholeWord, j)
    ensures RemoveFrom(s, p, wholeWord, i) == s[i..]
  {
    RemoveFromUpTo(s, p, wholeWord, i, |s|);
  }

  /** The text before the leftmost match is kept, the match goes, and the scan resumes right after it. */
  lemma RemoveFromFirstMatch(s: string, p: string, wholeWord: bool, i: nat)
    requires |p| > 0 && i <= |s| && FirstMatchFrom(s, p, wholeWord, i).Some?
    ensures var j := FirstMatchFrom(s, p, wholeWord, i).value;
      RemoveFrom(s, p, wholeWord, i) == s[i..j] + RemoveFrom(s, p, wholeWord, j + |p|)
  {
    var j := FirstMatchFrom(s, p, wholeWord, i).value;
    RemoveFromUpTo(s, p, wholeWord, i, j);
    assert MatchAt(s, p, wholeWord, j);
  }

  /** No whole-word match of `w` anywhere in `s`. */
  predicate NoWordIn(s: string, w: string) {
    forall j :: 0 <= j < |s| ==> !WordAt(s, w, j)
  }

  /**
   * `s.replace(new RegExp('\\b' + w + '\\b', 'g'), '')`; an empty keyword only matches empty strings.
   * Text before the leftmost whole-word match stays, the match goes, and the rest is scanned after it.
   */
  function RemoveWord(s: string, w: string): (r: string)
    ensures |r| <= |s|
    ensures Lowercase(s) ==> Lowercase(r)
    ensures NoWordIn(s, w) ==> r == s
    ensures w != [] && FirstMatchFrom(s, w, true, 0).Some? ==>
      var j := FirstMatchFrom(s, w, true, 0).value; r == s[..j] + RemoveFrom(s, w, true, j + |w|)
  {
    if w == [] then s
    else
      assert NoWordIn(s, w) ==> RemoveFrom(s, w, true, 0) == s by {
        if NoWordIn(s, w) { RemoveFromNoMatch(s, w, true, 0); }
      }
      assert FirstMatchFrom(s, w, true, 0).Some? ==> var j := FirstMatchFrom(s, w, true, 0).value;
        RemoveFrom(s, w, true, 0) == s[..j] + RemoveFrom(s, w, true, j + |w|) by {
        if FirstMatchFrom(s, w, true, 0).Some? { RemoveFromFirstMatch(s, w, true, 0); }
      }
      assert Lowercase(s) ==> Lowercase(RemoveFrom(s, w, true, 0)) by {
        if Lowercase(s) { RemoveFromKeepsCase(s, w, true, 0); }
      }
      RemoveFrom(s, w, true, 0)
  }

  /**
   * `s.replace(new RegExp(p, 'g'), '')` for a phrase `p` without special characters.
   * Text before the leftmost occurrence stays, the occurrence goes, and the rest is scanned after it.
   */
  function ReplaceAll(s: string, p: string): (r: string)
    ensures |r| <= |s|
    ensures Lowercase(s) ==> Lowercase(r)
    ensures !Contains(s, p) ==> r == s
    ensures p != [] && FirstMatchFrom(s, p, false, 0).Some? ==>
      var j := FirstMatchFrom(s, p, false, 0).value; r == s[..j] + RemoveFrom(s, p, false, j + |p|)
  {
    if p == [] then s
    else
      assert !Contains(s, p) ==> RemoveFrom(s, p, false, 0) == s by {
        if !Contains(s, p) { RemoveFromNoMatch(s, p, false, 0); }
      }
      assert FirstMatchFrom(s, p, false, 0).Some? ==> var j := FirstMatchFrom(s, p, false, 0).value;
        RemoveFrom(s, p, false, 0) == s[..j] + RemoveFrom(s, p, false, j + |p|) by {
        if FirstMatchFrom(s, p, false, 0).Some? { RemoveFromFirstMatch(s, p, false, 0); }
      }
      assert Lowercase(s) ==> Lowercase(RemoveFrom(s, p, false, 0)) by {
        if Lowercase(s) { RemoveFromKeepsCase(s, p, false, 0); }
      }
      RemoveFrom(s, p, false, 0)
  }

  /**
   * Whole-word removal of a keyword that begins with a word character never removes text right
   * after a match: so a word character at the front of what is left of `s[i..]` is `s[i]` itself.
   */
  lemma RemovedWordFront(s: string, w: string, i: nat)
    requires IsWord(w) && i <= |s|
    requires RemoveFrom(s, w, true, i) != [] && IsWordChar(RemoveFrom(s, w, true, i)[0])
    ensures i < |s| && !WordAt(s, w, i)
    ensures RemoveFrom(s, w, true, i) == [s[i]] + RemoveFrom(s, w, true, i + 1)
  {
  }

  /** Nor can a match start right after a word character, since `\b` fails there. */
  lemma RemovedWordAfterWordChar(s: string, w: string, k: nat)
    requires IsWord(w) && 0 < k <= |s| && IsWordChar(s[k - 1])
    requires RemoveFrom(s, w, true, k) != []
    ensures k < |s| && RemoveFrom(s, w, true, k) == [s[k]] + RemoveFrom(s, w, true, k + 1)
  {
  }

  // ---------------------------------------------------------------- whitespace runs

  /** Two whitespace characters in a row start at `i`. */
  predicate SpacePairAt(s: string, i: int) {
    0 <= i < |s| - 1 && IsSpace(s[i]) && IsSpace(s[i + 1])
  }

  /** No two whitespace characters in a row. */
  predicate NoDoubleSpace(s: string) {
    forall i :: 0 <= i < |s| ==> !SpacePairAt(s, i)
  }

  /**
   * The text read as tokens: each character that is not whitespace stands for itself (`Some`), and
   * each maximal run of whitespace, however long, is one `None`.
   */
  function Skeleton(s: string): seq<Option<char>>
    decreases |s|
  {
    if s == [] then []
    else if IsSpace(s[0]) then [None] + Skeleton(TrimStart(s))
    else [Some(s[0])] + Skeleton(s[1..])
  }

  /** `s.replace(/\s{2,}/g, ' ')`: every run of two or more whitespace characters becomes one space. */
  function CollapseSpaces(s: string): (r: string)
    decreases |s|
    ensures NoDoubleSpace(r)
    ensures |r| == 0 <==> |s| == 0
    ensures |r| > 0 ==> (IsSpace(r[0]) <==> IsSpace(s[0]))
    ensures Lowercase(s) ==> Lowercase(r)
  {
    if |s| >= 2 && IsSpace(s[0]) && IsSpace(s[1]) then
      var rest := CollapseSpaces(TrimStart(s));
      ConsNoDoubleSpace(' ', rest);
      [' '] + rest
    else if s == [] then []
    else
      var rest := CollapseSpaces(s[1..]);
      ConsNoDoubleSpace(s[0], rest);
      [s[0]] + rest
  }

  /**
   * Collapsing keeps the tokens: every character that is not whitespace stays, in order, and every
   * run of whitespace is still there, as one character.
   */
  lemma {:induction false} CollapseKeepsTokens(s: string)
    decreases |s|
    ensures Skeleton(CollapseSpaces(s)) == Skeleton(s)
  {
    if |s| >= 2 && IsSpace(s[0]) && IsSpace(s[1]) {
      var t := TrimStart(s);
      var rest := CollapseSpaces(t);
      CollapseKeepsTokens(t);
      SingleSpaceFront(' ', rest);
      assert CollapseSpaces(s) == [' '] + rest;
    } else if s != [] {
      var rest := CollapseSpaces(s[1..]);
      CollapseKeepsTokens(s[1..]);
      assert CollapseSpaces(s) == [s[0]] + rest;
      if IsSpace(s[0]) {
        SingleSpaceFront(s[0], s[1..]);
        SingleSpaceFront(s[0], rest);
        assert s == [s[0]] + s[1..];
      }
    }
  }

  /** Text without a run of whitespace is left as it is. */
  lemma {:induction false} CollapseSingleSpaced(s: string)
    decreases |s|
    requires NoDoubleSpace(s)
    ensures CollapseSpaces(s) == s
  {
    if s != [] {
      assert !SpacePairAt(s, 0);
      SliceKeepsSingleSpaces(s, 1, |s|);
      assert s[1..|s|] == s[1..];
      CollapseSingleSpaced(s[1..]);
      assert s == [s[0]] + s[1..];
    }
  }

  /** A lone whitespace character in front of text that does not start with one is a token of its own. */
  lemma SingleSpaceFront(c: char, t: string)
    requires IsSpace(c) && (t == [] || !IsSpace(t[0]))
    ensures TrimStart([c] + t) == t
    ensures Skeleton([c] + t) == [None] + Skeleton(t)
  {
    var x := [c] + t;
    assert SpaceRunEnd(x, 1) == 1;
    assert x[1..] == t;
  }

  /** A character put in front of text without a run of spaces makes one only with a space on both sides. */
  lemma ConsNoDoubleSpace(c: char, t: string)
    requires NoDoubleSpace(t)
    requires t == [] || !IsSpace(c) || !IsSpace(t[0])
    ensures NoDoubleSpace([c] + t)
  {
    var r := [c] + t;
    forall i | 0 < i < |r| && SpacePairAt(r, i)
      ensures false
    {
      assert SpacePairAt(t, i - 1);
    }
  }

  // ---------------------------------------------------------------- digits

  predicate AllDigits(ds: string) {
    forall i :: 0 <= i < |ds| ==> IsDigit(ds[i])
  }

  function Pow10(k: nat): (r: nat)
    ensures r >= 1
  {
    if k == 0 then 1 else 10 * Pow10(k - 1)
  }

  /** The value of a decimal digit. */
  function DigitValue(c: char): (d: nat)
    requires IsDigit(c)
    ensures d < 10
  {
    c as int - '0' as int
  }

  /** `parseInt` of a string of decimal digits: below `10^n` for `n` digits. */
  function DigitsValue(ds: string): (n: nat)
    requires AllDigits(ds)
    decreases |ds|
    ensures n < Pow10(|ds|)
  {
    if ds == [] then 0 else DigitsValue(ds[..|ds| - 1]) * 10 + DigitValue(ds[|ds| - 1])
  }

  /** Digits written after others shift their value: the positional reading of a numeral. */
  lemma {:induction false} DigitsAppend(a: string, b: string)
    requires AllDigits(a) && AllDigits(b)
    ensures AllDigits(a + b)
    ensures DigitsValue(a + b) == DigitsValue(a) * Pow10(|b|) + DigitsValue(b)
    decreases |b|
  {
    assert AllDigits(a + b) by {
      forall i | 0 <= i < |a + b| ensures IsDigit((a + b)[i]) {
        if i < |a| { assert (a + b)[i] == a[i]; } else { assert (a + b)[i] == b[i - |a|]; }
      }
    }
    if b != [] {
      var b' := b[..|b| - 1];
      assert (a + b)[..|a + b| - 1] == a + b';
      DigitsAppend(a, b');
      var x, y, d := DigitsValue(a), DigitsValue(b'), DigitValue(b[|b| - 1]);
      assert DigitsValue(a + b) == DigitsValue(a + b') * 10 + d;
      assert DigitsValue(b) == y * 10 + d;
      ShiftDigit(x, Pow10(|b'|), y, d);
    } else {
      assert a + b == a;
    }
  }

  lemma ShiftDigit(x: int, p: int, y: int, d: int)
    ensures (x * p + y) * 10 + d == x * (10 * p) + (y * 10 + d)
  {
  }

  /** The last digit written is the value's last decimal digit. */
  lemma LastDigit(ds: string)
    requires AllDigits(ds) && |ds| > 0
    ensures DigitsValue(ds) % 10 == ds[|ds| - 1] as int - '0' as int
  {
    var m := DigitsValue(ds[..|ds| - 1]);
    var d := DigitValue(ds[|ds| - 1]);
    assert DigitsValue(ds) == m * 10 + d;
    assert (m * 10 + d) % 10 == d;
  }

  /** The end of the run of digits that starts at `k` (greedy `\d*`). */
  function DigitRunEnd(s: string, k: nat): (e: nat)
    requires k <= |s|
    decreases |s| - k
    ensures k <= e <= |s| && AllDigits(s[k..e]) && (e == |s| || !IsDigit(s[e]))
  {
    if k < |s| && IsDigit(s[k]) then DigitRunEnd(s, k + 1) else k
  }

  /** The end of the run of whitespace that starts at `k` (greedy `\s*`). */
  function SpaceRunEnd(s: string, k: nat): (e: nat)
    requires k <= |s|
    decreases |s| - k
    ensures k <= e <= |s| && (e == |s| || !IsSpace(s[e]))
    ensures forall j :: k <= j < e ==> IsSpace(s[j])
  {
    if k < |s| && IsSpace(s[k]) then SpaceRunEnd(s, k + 1) else k
  }

  /** The end of the run of word characters that starts at `k` (greedy `\w*`). */
  function WordRunEnd(s: string, k: nat): (e: nat)
    requires k <= |s|
    decreases |s| - k
    ensures k <= e <= |s| && (e == |s| || !IsWordChar(s[e]))
    ensures forall j :: k <= j < e ==> IsWordChar(s[j])
  {
    if k < |s| && IsWordChar(s[k]) then WordRunEnd(s, k + 1) else k
  }
}
