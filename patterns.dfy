/**
 * Hand-written recognisers for the regular expressions of the voice parser. Each is searched
 * for as `String.prototype.match` does without the `g` flag: the leftmost position at which the
 * expression matches wins. Every quantifier in these expressions is greedy and is followed only
 * by optional parts or by a character the quantified class cannot contain, so no backtracking
 * ever changes a match: the recognisers take each greedy choice once.
 * All four are applied to lower-cased text, where their `i` flag makes no difference.
 */
module Patterns {
  import opened Wrappers
  import opened Text

  datatype Meridiem = Am | Pm

  datatype Pattern =
    | AtTime    // /at (\d{1,2}):?(\d{2})?\s*(am|pm)?/i
    | OnDate    // /on (\w+ \d{1,2}(?:st|nd|rd|th)?)/i
    | RemindMe  // /remind me (\d+) minutes before/i
    | Minutes   // /(\d+)\s*minutes?/

  /** The expression has a match that starts at position `p` of `s`. */
  predicate StartsAt(pat: Pattern, s: string, p: nat) {
    match pat
    case AtTime =>
      OccursAt(s, "at ", p) && p + 3 < |s| && IsDigit(s[p + 3])
    case OnDate =>
      && OccursAt(s, "on ", p) && p + 3 < |s| && IsWordChar(s[p + 3])
      && (var e := WordRunEnd(s, p + 3); e + 1 < |s| && s[e] == ' ' && IsDigit(s[e + 1]))
    case RemindMe =>
      && OccursAt(s, "remind me ", p) && p + 10 < |s| && IsDigit(s[p + 10])
      && OccursAt(s, " minutes before", DigitRunEnd(s, p + 10))
    case Minutes =>
      p < |s| && IsDigit(s[p]) && OccursAt(s, "minute", SpaceRunEnd(s, DigitRunEnd(s, p)))
  }

  /** The leftmost match of `pat` at or after position `k`. */
  function FindFrom(pat: Pattern, s: string, k: nat): (r: Option<nat>)
    requires k <= |s|
    decreases |s| - k
    ensures r.Some? ==> k <= r.value < |s| && StartsAt(pat, s, r.value)
    ensures r.Some? ==> forall q :: k <= q < r.value ==> !StartsAt(pat, s, q)
    ensures r.None? ==> forall q :: k <= q ==> !StartsAt(pat, s, q)
  {
    if k == |s| then None
    else if StartsAt(pat, s, k) then Some(k)
    else FindFrom(pat, s, k + 1)
  }

  /** Where `s.match(pat)` finds its match, if anywhere. */
  function Find(pat: Pattern, s: string): (r: Option<nat>)
    ensures r.Some? ==> r.value < |s| && StartsAt(pat, s, r.value)
    ensures r.Some? ==> forall q: nat :: q < r.value ==> !StartsAt(pat, s, q)
    ensures r.None? ==> forall q: nat :: !StartsAt(pat, s, q)
  {
    FindFrom(pat, s, 0)
  }

  // ---------------------------------------------------------------- at H[:MM][am|pm]

  /** The groups of a time match: the whole match, the hour, the minutes and the period. */
  datatype TimeMatch = TimeMatch(text: string, hour: nat, minute: Option<nat>, period: Option<Meridiem>)

  /** The end of the one or two hour digits of a time match at `p`. */
  function HourEnd(s: string, p: nat): (h: nat)
    requires StartsAt(AtTime, s, p)
    ensures p + 4 <= h <= p + 5 && h <= |s| && AllDigits(s[p + 3..h])
    ensures h == p + 5 <==> p + 4 < |s| && IsDigit(s[p + 4])
  {
    if p + 4 < |s| && IsDigit(s[p + 4]) then p + 5 else p + 4
  }

  /** Where the minutes of a time match at `p` would start: past the hour and an optional colon. */
  function MinuteStart(s: string, p: nat): (c: nat)
    requires StartsAt(AtTime, s, p)
    ensures HourEnd(s, p) <= c <= |s|
  {
    var h := HourEnd(s, p);
    if h < |s| && s[h] == ':' then h + 1 else h
  }

  /** The two minute digits of a time match at `p`, if present. */
  function MinuteDigits(s: string, p: nat): (r: Option<string>)
    requires StartsAt(AtTime, s, p)
    ensures r.Some? <==> MinuteStart(s, p) + 2 <= |s| && AllDigits(s[MinuteStart(s, p)..MinuteStart(s, p) + 2])
    ensures r.Some? ==> r.value == s[MinuteStart(s, p)..MinuteStart(s, p) + 2]
  {
    var c := MinuteStart(s, p);
    if c + 1 < |s| && IsDigit(s[c]) && IsDigit(s[c + 1]) then Some(s[c..c + 2]) else None
  }

  /** Where the optional `am` / `pm` of a time match at `p` would start: past any whitespace. */
  function PeriodStart(s: string, p: nat): (w: nat)
    requires StartsAt(AtTime, s, p)
    ensures MinuteStart(s, p) <= w <= |s|
  {
    SpaceRunEnd(s, if MinuteDigits(s, p).Some? then MinuteStart(s, p) + 2 else MinuteStart(s, p))
  }

  /** The `am` / `pm` of a time match at `p`, if present. */
  function PeriodOf(s: string, p: nat): (r: Option<Meridiem>)
    requires StartsAt(AtTime, s, p)
    ensures r == Some(Am) <==> OccursAt(s, "am", PeriodStart(s, p))
    ensures r == Some(Pm) <==> OccursAt(s, "pm", PeriodStart(s, p))
  {
    var w := PeriodStart(s, p);
    if OccursAt(s, "am", w) then Some(Am) else if OccursAt(s, "pm", w) then Some(Pm) else None
  }

  /** The end of a time match at `p`: past the period if there is one. */
  function TimeEnd(s: string, p: nat): (e: nat)
    requires StartsAt(AtTime, s, p)
    ensures p + 4 <= e <= |s|
    ensures e == PeriodStart(s, p) + (if PeriodOf(s, p).Some? then 2 else 0)
  {
    if PeriodOf(s, p).Some? then PeriodStart(s, p) + 2 else PeriodStart(s, p)
  }

  /**
   * The groups of the time match at `p`: the matched text, the value of its one or two hour
   * digits, the value of its two minute digits when present, and its period when present.
   */
  function TimeAt(s: string, p: nat): (m: TimeMatch)
    requires StartsAt(AtTime, s, p)
    ensures OccursAt(s, m.text, p) && OccursAt(m.text, "at ", 0) && p + |m.text| == TimeEnd(s, p)
    ensures m.hour == DigitsValue(s[p + 3..HourEnd(s, p)]) && m.hour < 100
    ensures m.minute.None? <==> MinuteDigits(s, p).None?
    ensures m.minute.Some? ==> m.minute.value == DigitsValue(MinuteDigits(s, p).value) && m.minute.value < 100
    ensures m.period == PeriodOf(s, p)
  {
    var e := TimeEnd(s, p);
    assert s[p..e][..3] == s[p..p + 3] by {
      assert p + 3 < e;
      forall k | 0 <= k < 3 ensures s[p..e][k] == s[p..p + 3][k] { }
    }
    var minute := match MinuteDigits(s, p) case Some(ds) => Some(DigitsValue(ds)) case None => None;
    TimeMatch(s[p..e], DigitsValue(s[p + 3..HourEnd(s, p)]), minute, PeriodOf(s, p))
  }

  /** `text.match(/at (\d{1,2}):?(\d{2})?\s*(am|pm)?/i)` */
  function AtTimeMatch(s: string): (r: Option<TimeMatch>)
    ensures r.Some? <==> exists p :: StartsAt(AtTime, s, p)
    ensures r.Some? ==> Contains(s, r.value.text)
    ensures r.Some? ==> r.value == TimeAt(s, Find(AtTime, s).value)
  {
    match Find(AtTime, s)
    case Some(p) => Some(TimeAt(s, p))
    case None => None
  }

  // ---------------------------------------------------------------- on <word> <d>[st|nd|rd|th]

  /** The groups of a date match: the whole match and the captured `<word> <d>[suffix]`. */
  datatype DateMatch = DateMatch(text: string, dateStr: string)

  /** The end of the one or two day digits of a date match at `p` (greedy `\d{1,2}`). */
  function DayEnd(s: string, p: nat): (d: nat)
    requires StartsAt(OnDate, s, p)
    ensures var e := WordRunEnd(s, p + 3); e + 2 <= d <= e + 3 && d <= |s| && AllDigits(s[e + 1..d])
    ensures var e := WordRunEnd(s, p + 3); d == e + 3 <==> e + 2 < |s| && IsDigit(s[e + 2])
  {
    var e := WordRunEnd(s, p + 3);
    if e + 2 < |s| && IsDigit(s[e + 2]) then e + 3 else e + 2
  }

  /** An ordinal suffix `st`, `nd`, `rd` or `th` at `d`. */
  predicate OrdinalAt(s: string, d: int) {
    OccursAt(s, "st", d) || OccursAt(s, "nd", d) || OccursAt(s, "rd", d) || OccursAt(s, "th", d)
  }

  /**
   * The groups of the date match at `p`: the captured date string is the whole word after "on ",
   * one space, the one or two day digits, and an ordinal suffix when one follows.
   */
  function DateAt(s: string, p: nat): (m: DateMatch)
    requires StartsAt(OnDate, s, p)
    ensures OccursAt(s, m.text, p) && m.text == "on " + m.dateStr
    ensures p + 3 + |m.dateStr| <= |s| && m.dateStr == s[p + 3..p + 3 + |m.dateStr|]
    ensures p + 3 + |m.dateStr| == DayEnd(s, p) + (if OrdinalAt(s, DayEnd(s, p)) then 2 else 0)
  {
    var d := DayEnd(s, p);
    var f := if OrdinalAt(s, d) then d + 2 else d;
    assert s[p..f] == s[p..p + 3] + s[p + 3..f];
    DateMatch(s[p..f], s[p + 3..f])
  }

  /** `text.match(/on (\w+ \d{1,2}(?:st|nd|rd|th)?)/i)` */
  function OnDateMatch(s: string): (r: Option<DateMatch>)
    ensures r.Some? <==> exists p :: StartsAt(OnDate, s, p)
    ensures r.Some? ==> Contains(s, r.value.text)
    ensures r.Some? ==> r.value == DateAt(s, Find(OnDate, s).value)
  {
    match Find(OnDate, s)
    case Some(p) => Some(DateAt(s, p))
    case None => None
  }

  // ---------------------------------------------------------------- remind me N minutes before

  /** The number captured by a match of `remind me (\d+) minutes before` at `p`. */
  function RemindMeValue(s: string, p: nat): nat
    requires StartsAt(RemindMe, s, p)
  {
    DigitsValue(s[p + 10..DigitRunEnd(s, p + 10)])
  }

  /** `parseInt(text.match(/remind me (\d+) minutes before/i)[1])`, if it matches. */
  function RemindMeMatch(s: string): (r: Option<nat>)
    ensures r.Some? <==> exists p :: StartsAt(RemindMe, s, p)
    ensures r.Some? ==> var p := Find(RemindMe, s).value;
      p + 10 < DigitRunEnd(s, p + 10) && r.value == DigitsValue(s[p + 10..DigitRunEnd(s, p + 10)])
  {
    match Find(RemindMe, s)
    case Some(p) => Some(RemindMeValue(s, p))
    case None => None
  }

  // ---------------------------------------------------------------- N minutes

  /** The number captured by a match of `(\d+)\s*minutes?` at `p`. */
  function MinutesValue(s: string, p: nat): nat
    requires StartsAt(Minutes, s, p)
  {
    DigitsValue(s[p..DigitRunEnd(s, p)])
  }

  /** `parseInt(text.match(/(\d+)\s*minutes?/)[1])`, if it matches. */
  function MinutesMatch(s: string): (r: Option<nat>)
    ensures r.Some? <==> exists p :: StartsAt(Minutes, s, p)
    ensures r.Some? ==> var p := Find(Minutes, s).value;
      p < DigitRunEnd(s, p) && r.value == DigitsValue(s[p..DigitRunEnd(s, p)])
  {
    match Find(Minutes, s)
    case Some(p) => Some(MinutesValue(s, p))
    case None => None
  }

  // ---------------------------------------------------------------- task-name fillers

  /** The length of the verb `add|create|new|make` that `s` starts with, or 0. */
  function LeadingVerb(s: string): (n: nat)
    ensures n <= |s|
    ensures n > 0 ==> s[..n] == "add" || s[..n] == "create" || s[..n] == "new" || s[..n] == "make"
  {
    if OccursAt(s, "add", 0) then 3
    else if OccursAt(s, "create", 0) then 6
    else if OccursAt(s, "new", 0) then 3
    else if OccursAt(s, "make", 0) then 4
    else 0
  }

  /** Past an optional group `(w\s+)?` that starts at `k`: taken only when `w` is followed by whitespace. */
  function SkipGroup(s: string, k: nat, w: string): (e: nat)
    requires k <= |s|
    ensures k <= e <= |s|
    ensures e > k <==> OccursAt(s, w, k) && k + |w| < |s| && IsSpace(s[k + |w|])
    ensures e > k ==> e > k + |w| && (forall j :: k + |w| <= j < e ==> IsSpace(s[j])) && (e == |s| || !IsSpace(s[e]))
  {
    if OccursAt(s, w, k) && k + |w| < |s| && IsSpace(s[k + |w|]) then SpaceRunEnd(s, k + |w|) else k
  }

  /** `s.replace(/^(add|create|new|make)\s+(a\s+)?(task\s+)?(to\s+)?/i, '')` */
  /** The text starts with add, create, new or make followed by whitespace. */
  predicate HasLeadingFiller(s: string) {
    0 < LeadingVerb(s) < |s| && IsSpace(s[LeadingVerb(s)])
  }

  /**
   * `s.replace(/^(add|create|new|make)\s+(a\s+)?(task\s+)?(to\s+)?/i, '')`: what goes is the verb,
   * the whitespace after it, then each of "a", "task" and "to" in that order where it stands next,
   * each together with the whitespace after it.
   */
  function StripLeadingFiller(s: string): (r: string)
    ensures |r| <= |s| && r == s[|s| - |r|..]
    ensures |r| < |s| <==> HasLeadingFiller(s)
    ensures HasLeadingFiller(s) ==>
      |s| - |r| == SkipGroup(s, SkipGroup(s, SkipGroup(s, SpaceRunEnd(s, LeadingVerb(s)), "a"), "task"), "to")
    ensures |r| < |s| ==> r == [] || !IsSpace(r[0])
    ensures Lowercase(s) ==> Lowercase(r)
  {
    var v := LeadingVerb(s);
    if !HasLeadingFiller(s) then s
    else s[SkipGroup(s, SkipGroup(s, SkipGroup(s, SpaceRunEnd(s, v), "a"), "task"), "to")..]
  }

  /** `s` ends in `w` after at least one space. */
  predicate EndsPolitely(s: string, w: string) {
    |s| > |w| && OccursAt(s, w, |s| - |w|) && IsSpace(s[|s| - |w| - 1])
  }

  /** The text ends in whitespace and then please, thanks or thank you. */
  predicate HasPoliteSuffix(s: string) {
    EndsPolitely(s, "please") || EndsPolitely(s, "thanks") || EndsPolitely(s, "thank you")
  }

  /**
   * `s.replace(/\s+(please|thanks|thank you)$/i, '')`: the word and the whole run of whitespace
   * before it go, and nothing else.
   */
  function StripPoliteSuffix(s: string): (r: string)
    ensures |r| <= |s| && r == s[..|r|]
    ensures |r| < |s| <==> HasPoliteSuffix(s)
    ensures |r| < |s| ==> r == [] || !IsSpace(r[|r| - 1])
    ensures EndsPolitely(s, "please") ==> |r| < |s| - 6 && forall j :: |r| <= j < |s| - 6 ==> IsSpace(s[j])
    ensures EndsPolitely(s, "thanks") ==> |r| < |s| - 6 && forall j :: |r| <= j < |s| - 6 ==> IsSpace(s[j])
    ensures EndsPolitely(s, "thank you") ==> |r| < |s| - 9 && forall j :: |r| <= j < |s| - 9 ==> IsSpace(s[j])
    ensures Lowercase(s) ==> Lowercase(r)
  {
    var n := PoliteLength(s);
    if n == 0 then s else CutAfterSpace(s, n); TrimEnd(s[..|s| - n])
  }

  /** The length of the polite word that ends `s` after whitespace, or 0 when none does. */
  function PoliteLength(s: string): (n: nat)
    ensures n == 0 <==> !HasPoliteSuffix(s)
    ensures EndsPolitely(s, "please") ==> n == 6
    ensures EndsPolitely(s, "thanks") ==> n == 6
    ensures EndsPolitely(s, "thank you") ==> n == 9
    ensures n > 0 ==> |s| > n && IsSpace(s[|s| - n - 1])
  {
    PoliteWordsExclusive(s);
    if EndsPolitely(s, "please") then 6
    else if EndsPolitely(s, "thanks") then 6
    else if EndsPolitely(s, "thank you") then 9
    else 0
  }

  /** Cutting `n` characters after a space and trimming the end leaves a proper prefix of `s`. */
  lemma CutAfterSpace(s: string, n: nat)
    requires |s| > n && IsSpace(s[|s| - n - 1])
    ensures var r := TrimEnd(s[..|s| - n]);
      |r| < |s| - n && r == s[..|r|] && forall j :: |r| <= j < |s| - n ==> IsSpace(s[j])
    ensures Lowercase(s) ==> Lowercase(s[..|s| - n])
  {
    var t := s[..|s| - n];
    var r := TrimEnd(t);
    assert t[|t| - 1] == s[|s| - n - 1];
    assert r == s[..|r|] by { assert t[..|r|] == s[..|r|]; }
    forall j | |r| <= j < |s| - n ensures IsSpace(s[j]) {
      assert t[j] == s[j];
    }
  }

  /** At most one of the polite words ends a text: their last letters differ. */
  lemma PoliteWordsExclusive(s: string)
    ensures EndsPolitely(s, "please") ==> !EndsPolitely(s, "thanks") && !EndsPolitely(s, "thank you")
    ensures EndsPolitely(s, "thanks") ==> !EndsPolitely(s, "thank you")
  {
    if EndsPolitely(s, "please") {
      assert s[|s| - 1] == s[|s| - 6..][5] == 'e';
    }
    if EndsPolitely(s, "thanks") {
      assert s[|s| - 1] == s[|s| - 6..][5] == 's';
    }
    if EndsPolitely(s, "thank you") {
      assert s[|s| - 1] == s[|s| - 9..][8] == 'u';
    }
  }
}
