/**
 * The natural-language parser: an utterance becomes a task (name, due date, priority, category,
 * reminder), and a question becomes a task filter. Everything is keyword and pattern work over
 * the lower-cased text; every stage has a default instead of an error.
 *
 * The clock is a parameter `now`, and dates are abstract `Moment`s (a day number and a time of
 * day). The date library's `parse(dateStr, 'MMMM d', new Date())` followed by `isValid` is the
 * parameter `monthDay`, and `format(new Date(), 'yyyy-MM-dd')` is the parameter `todayKey`.
 */
module VoiceParser {
  import opened Wrappers
  import opened Text
  import opened Patterns
  import opened Lexicons
  import opened TaskNames

  /** A point in time: a day number, and the hour and minute of that day. */
  datatype Moment = Moment(day: int, hour: int, minute: int)

  /** What `parseVoiceInput` returns. */
  datatype ParsedTask = ParsedTask(
    name: string,
    dueDate: Option<Moment>,
    priority: Priority,
    category: Option<Category>,
    reminderMinutes: Option<nat>,
    isComplete: bool)

  // ================================================================ keyword scans

  /** `keywords.some(keyword => text.includes(keyword))` */
  predicate AnyIn(text: string, keywords: seq<string>) {
    exists k :: 0 <= k < |keywords| && Contains(text, keywords[k])
  }

  /** The first group of `table`, from `k` on, with a keyword inside `text`. */
  function FirstGroupFrom<L>(text: string, table: seq<(L, seq<string>)>, k: nat): (r: Option<nat>)
    requires k <= |table|
    decreases |table| - k
    ensures r.Some? ==> k <= r.value < |table| && AnyIn(text, table[r.value].1)
    ensures r.Some? ==> forall j :: k <= j < r.value ==> !AnyIn(text, table[j].1)
    ensures r.None? ==> forall j :: k <= j < |table| ==> !AnyIn(text, table[j].1)
  {
    if k == |table| then None
    else if AnyIn(text, table[k].1) then Some(k)
    else FirstGroupFrom(text, table, k + 1)
  }

  /** Some key of `table` occurs inside `text`. */
  predicate AnyKey<V>(text: string, table: seq<(string, V)>) {
    exists k :: 0 <= k < |table| && Contains(text, table[k].0)
  }

  /** The first entry of `table`, from `k` on, whose key occurs inside `text`. */
  function FirstKeyFrom<V>(text: string, table: seq<(string, V)>, k: nat): (r: Option<nat>)
    requires k <= |table|
    decreases |table| - k
    ensures r.Some? ==> k <= r.value < |table| && Contains(text, table[r.value].0)
    ensures r.Some? ==> forall j :: k <= j < r.value ==> !Contains(text, table[j].0)
    ensures r.None? ==> forall j :: k <= j < |table| ==> !Contains(text, table[j].0)
  {
    if k == |table| then None
    else if Contains(text, table[k].0) then Some(k)
    else FirstKeyFrom(text, table, k + 1)
  }

  // ================================================================ priority, category, reminder

  /** `extractPriority`: the first of high, medium, low with a keyword inside the text; else medium. */
  function ExtractPriority(text: string): (p: Priority)
    ensures p == High <==> AnyIn(text, HighKeywords)
    ensures p == Low <==> !AnyIn(text, HighKeywords) && !AnyIn(text, MediumKeywords) && AnyIn(text, LowKeywords)
  {
    match FirstGroupFrom(text, PriorityTable, 0)
    case Some(k) =>
      assert k > 0 ==> !AnyIn(text, PriorityTable[0].1);
      assert k > 1 ==> !AnyIn(text, PriorityTable[1].1);
      PriorityTable[k].0
    case None =>
      assert !AnyIn(text, PriorityTable[0].1) && !AnyIn(text, PriorityTable[2].1);
      Medium
  }

  /** `extractCategory`: the first of Family, Personal, Office with a keyword inside the text. */
  function ExtractCategory(text: string): (c: Option<Category>)
    ensures c == Some(Family) <==> AnyIn(text, FamilyKeywords)
    ensures c == Some(Personal) <==> !AnyIn(text, FamilyKeywords) && AnyIn(text, PersonalKeywords)
    ensures c == Some(Office) <==>
      !AnyIn(text, FamilyKeywords) && !AnyIn(text, PersonalKeywords) && AnyIn(text, OfficeKeywords)
    ensures c == None <==>
      !AnyIn(text, FamilyKeywords) && !AnyIn(text, PersonalKeywords) && !AnyIn(text, OfficeKeywords)
  {
    match FirstGroupFrom(text, CategoryTable, 0)
    case Some(k) =>
      assert k > 0 ==> !AnyIn(text, CategoryTable[0].1);
      assert k > 1 ==> !AnyIn(text, CategoryTable[1].1);
      Some(CategoryTable[k].0)
    case None =>
      assert !AnyIn(text, CategoryTable[0].1) && !AnyIn(text, CategoryTable[1].1) && !AnyIn(text, CategoryTable[2].1);
      None
  }

  /**
   * `extractReminder`: the lead-time phrases in table order (5, then 10, then 20, then 25 minutes),
   * then the number of the first `remind me N minutes before`.
   */
  function ExtractReminder(text: string): (r: Option<nat>)
    ensures Contains(text, "5 minutes") ==> r == Some(5)
    ensures !Contains(text, "5 minutes") && Contains(text, "10 minutes") ==> r == Some(10)
    ensures !Contains(text, "5 minutes") && !Contains(text, "10 minutes") && Contains(text, "20 minutes") ==> r == Some(20)
    ensures AnyKey(text, ReminderKeywords) ==> r == Some(5) || r == Some(10) || r == Some(20) || r == Some(25)
    ensures !AnyKey(text, ReminderKeywords) ==> r == RemindMeMatch(text)
  {
    match FirstKeyFrom(text, ReminderKeywords, 0)
    case Some(k) => Some(ReminderKeywords[k].1)
    case None => RemindMeMatch(text)
  }

  /** Substring matching: "below", "slow" or "follow" make a task low-priority. */
  lemma LowInsideBelow(text: string)
    requires Contains(text, "below")
    requires !AnyIn(text, HighKeywords) && !AnyIn(text, MediumKeywords)
    ensures ExtractPriority(text) == Low
  {
    ContainsPart(text, "below", "low", 2);
    assert Contains(text, LowKeywords[0]);
  }

  /** Any text with "me" inside, such as "meeting" or "remind me", is Personal unless it names family. */
  lemma MeetingIsPersonal(text: string)
    requires Contains(text, "meeting") || Contains(text, "remind me")
    requires !AnyIn(text, FamilyKeywords)
    ensures ExtractCategory(text) == Some(Personal)
  {
    if Contains(text, "meeting") {
      ContainsPart(text, "meeting", "me", 0);
    } else {
      ContainsPart(text, "remind me", "me", 7);
    }
    assert Contains(text, PersonalKeywords[2]);
  }

  /** "15 minutes" and "25 minutes" contain "5 minutes", which is scanned first. */
  lemma ReminderShadowedByFive(text: string)
    requires Contains(text, "15 minutes") || Contains(text, "25 minutes")
    ensures ExtractReminder(text) == Some(5)
  {
    if Contains(text, "15 minutes") {
      ContainsPart(text, "15 minutes", "5 minutes", 1);
    } else {
      ContainsPart(text, "25 minutes", "5 minutes", 1);
    }
  }

  /** The number of a `remind me N minutes before` match ends in 5 exactly when its last digit is '5'. */
  lemma RemindMeLastDigit(text: string, p: nat)
    requires StartsAt(RemindMe, text, p) && RemindMeValue(text, p) % 10 == 5
    ensures text[DigitRunEnd(text, p + 10) - 1] == '5'
  {
    var e := DigitRunEnd(text, p + 10);
    var ds := text[p + 10..e];
    assert |ds| > 0 && ds[|ds| - 1] == text[e - 1];
    LastDigit(ds);
    assert ds[|ds| - 1] as int == 53;
    assert text[e - 1] == (text[e - 1] as int) as char == '5';
  }

  /** A '5' right before " minutes before" starts the phrase "5 minutes". */
  lemma FiveBeforeMinutes(text: string, e: nat)
    requires 0 < e <= |text| && text[e - 1] == '5' && OccursAt(text, " minutes before", e)
    ensures OccursAt(text, "5 minutes", e - 1)
  {
    assert text[e..e + 15] == " minutes before";
    assert text[e..e + 8] == text[e..e + 15][..8];
    assert text[e..e + 15][..8] == " minutes";
    assert text[e - 1..e + 9] == [text[e - 1]] + text[e..e + 8] + [text[e + 8]];
  }

  /** A `remind me N minutes before` match whose number ends in 5 holds the phrase "5 minutes". */
  lemma RemindMeFiveHoldsFiveMinutes(text: string, p: nat)
    requires StartsAt(RemindMe, text, p) && RemindMeValue(text, p) % 10 == 5
    ensures OccursAt(text, "5 minutes", DigitRunEnd(text, p + 10) - 1)
  {
    RemindMeLastDigit(text, p);
    FiveBeforeMinutes(text, DigitRunEnd(text, p + 10));
  }

  /**
   * No reminder ending in the digit 5 other than 5 itself is ever produced: a lexicon phrase
   * ending in 5 contains "5 minutes", and so does a `remind me N5 minutes before` phrase.
   */
  lemma ReminderNeverEndsInFive(text: string)
    ensures ExtractReminder(text).Some? ==> ExtractReminder(text) == Some(5) || ExtractReminder(text).value % 10 != 5
  {
    if Contains(text, "25 minutes") {
      ReminderShadowedByFive(text);
    }
    if !AnyKey(text, ReminderKeywords) && RemindMeMatch(text).Some? {
      var p := Find(RemindMe, text).value;
      if RemindMeValue(text, p) % 10 == 5 {
        RemindMeFiveHoldsFiveMinutes(text, p);
      }
    }
  }

  /** The lexicon entry for 25 minutes is unreachable. */
  lemma ReminderNeverTwentyFive(text: string)
    ensures ExtractReminder(text) != Some(25)
  {
    ReminderNeverEndsInFive(text);
  }

  // ================================================================ due date

  /** The hour a 12-hour clock reading stands for: `pm` below 12 adds 12, `12am` is midnight. */
  function To24Hour(hour: nat, period: Option<Meridiem>): (h: nat)
    ensures period.None? ==> h == hour
    ensures 1 <= hour <= 12 && period.Some? ==> (h < 12 <==> period == Some(Am)) && h < 24 && h % 12 == hour % 12
    ensures hour == 0 ==> h == (if period == Some(Pm) then 12 else 0)
    ensures hour > 12 ==> h == hour
  {
    match period
    case Some(Pm) => if hour < 12 then hour + 12 else hour
    case Some(Am) => if hour == 12 then 0 else hour
    case None => hour
  }

  /** On a 12-hour reading the conversion keeps the hour modulo 12. */
  lemma TwelveHourClock(hour: nat, period: Meridiem)
    requires 1 <= hour <= 12
    ensures To24Hour(hour, Some(period)) % 12 == hour % 12
  {
  }

  /** The due date and the text left for the task name. */
  datatype DateTime = DateTime(dueDate: Option<Moment>, cleanText: string)

  /** The moment `days` days after `now`: at the first `at` time in the text, else at the time of `now`. */
  function DueMoment(text: string, now: Moment, days: nat): (d: Moment)
    ensures d.day == now.day + days
    ensures AtTimeMatch(text).None? ==> d.hour == now.hour && d.minute == now.minute
    ensures AtTimeMatch(text).Some? ==> var m := AtTimeMatch(text).value;
      d.hour == To24Hour(m.hour, m.period) && d.minute == m.minute.GetOr(0)
  {
    match AtTimeMatch(text)
    case Some(m) => Moment(now.day + days, To24Hour(m.hour, m.period), m.minute.GetOr(0))
    case None => Moment(now.day + days, now.hour, now.minute)
  }

  /** The text left once the relative-day phrase `keyword`, then the `at` time, are taken out. */
  function RelativeCleanText(text: string, keyword: string): (r: string)
    ensures Lowercase(text) ==> Lowercase(r)
    ensures |r| <= |text|
    ensures Contains(text, keyword) ==> |r| + |keyword| <= |text|
    ensures AtTimeMatch(text).None? ==> r == Trim(ReplaceFirst(text, keyword))
  {
    var clean := Trim(ReplaceFirst(text, keyword));
    match AtTimeMatch(text)
    case Some(m) => Trim(ReplaceFirst(clean, m.text))
    case None => clean
  }

  /** The due date set by an `on <month> <day>` phrase, if the date library accepts it. */
  function AbsoluteDate(text: string, monthDay: string -> Option<Moment>): (r: DateTime)
    ensures r.dueDate.Some? ==> OnDateMatch(text).Some? && r.dueDate == monthDay(OnDateMatch(text).value.dateStr)
    ensures OnDateMatch(text).Some? && monthDay(OnDateMatch(text).value.dateStr).Some? ==>
      r == DateTime(monthDay(OnDateMatch(text).value.dateStr), Trim(ReplaceFirst(text, OnDateMatch(text).value.text)))
    ensures r.dueDate.None? ==> r.cleanText == text
    ensures Lowercase(text) ==> Lowercase(r.cleanText)
    ensures |r.cleanText| <= |text|
  {
    match OnDateMatch(text)
    case Some(m) =>
      (match monthDay(m.dateStr)
       case Some(d) => DateTime(Some(d), Trim(ReplaceFirst(text, m.text)))
       case None => DateTime(None, text))
    case None => DateTime(None, text)
  }

  /** The due date and text left by the first phrase of `table` inside the text, if any. */
  function RelativeDays(text: string, now: Moment, table: seq<(string, nat)>): (r: DateTime)
    ensures AnyKey(text, table) <==> r.dueDate.Some?
    ensures FirstKeyFrom(text, table, 0).Some? ==> var k := FirstKeyFrom(text, table, 0).value;
      r.dueDate == Some(DueMoment(text, now, table[k].1)) && r.cleanText == RelativeCleanText(text, table[k].0)
    ensures r.dueDate.None? ==> r.cleanText == text
    ensures Lowercase(text) ==> Lowercase(r.cleanText)
    ensures |r.cleanText| <= |text|
  {
    match FirstKeyFrom(text, table, 0)
    case Some(k) => DateTime(Some(DueMoment(text, now, table[k].1)), RelativeCleanText(text, table[k].0))
    case None => DateTime(None, text)
  }

  /**
   * `extractDateTime`. The first relative-day phrase sets the day; an `at` time, searched only
   * then, sets the time of day, which otherwise stays that of `now`. Without a relative-day
   * phrase, an `on <month> <day>` phrase the date library accepts sets the date.
   */
  function DateTimeOf(text: string, now: Moment, monthDay: string -> Option<Moment>): (r: DateTime)
    ensures Lowercase(text) ==> Lowercase(r.cleanText)
    ensures |r.cleanText| <= |text|
    ensures AnyKey(text, TimeKeywords) ==> r == RelativeDays(text, now, TimeKeywords)
    ensures AnyKey(text, TimeKeywords) ==> r.dueDate.Some? && now.day <= r.dueDate.value.day <= now.day + 7
    ensures AnyKey(text, TimeKeywords) && AtTimeMatch(text).None? ==>
      r.dueDate.value.hour == now.hour && r.dueDate.value.minute == now.minute
    ensures !AnyKey(text, TimeKeywords) ==> r == AbsoluteDate(text, monthDay)
    ensures r.dueDate.None? ==> r.cleanText == text
  {
    var relative := RelativeDays(text, now, TimeKeywords);
    if relative.dueDate.Some? then
      (match FirstKeyFrom(text, TimeKeywords, 0)
       case Some(k) => TimeOffsetAtMostAWeek(k); relative
       case None => relative)
    else AbsoluteDate(text, monthDay)
  }

  /** "tomorrow" always means the next day, and "today" without "tomorrow" means today. */
  lemma TomorrowAndToday(text: string, now: Moment, monthDay: string -> Option<Moment>)
    ensures Contains(text, "tomorrow") ==> DateTimeOf(text, now, monthDay).dueDate.value.day == now.day + 1
    ensures !Contains(text, "tomorrow") && Contains(text, "today") ==>
      DateTimeOf(text, now, monthDay).dueDate.value.day == now.day
  {
    if Contains(text, "tomorrow") {
      assert Contains(text, TimeKeywords[0].0);
      assert FirstKeyFrom(text, TimeKeywords, 0) == Some(0);
    } else if Contains(text, "today") {
      assert Contains(text, TimeKeywords[1].0);
      assert FirstKeyFrom(text, TimeKeywords, 0) == Some(1);
    }
  }

  /** Before a time phrase, a text without the letter 'a' cannot hold an earlier match. */
  lemma TimeFoundAfter(pre: string, time: string, post: string)
    requires forall q :: 0 <= q < |pre| ==> pre[q] != 'a'
    requires StartsAt(AtTime, time, 0)
    ensures StartsAt(AtTime, pre + time + post, |pre|)
    ensures Find(AtTime, pre + time + post) == Some(|pre|)
  {
    var s := pre + time + post;
    assert s[|pre|..|pre| + 3] == time[..3];
    assert s[|pre| + 3] == time[3];
    assert StartsAt(AtTime, s, |pre|);
    forall q: nat | q < |pre|
      ensures !StartsAt(AtTime, s, q)
    {
      assert s[q] == pre[q];
    }
  }

  /** A piece of a literal found at `p` is the same piece of the text. */
  lemma SliceOfMatch(s: string, p: nat, w: string, a: nat, b: nat)
    requires p + |w| <= |s| && s[p..p + |w|] == w && a <= b <= |w|
    ensures s[p + a..p + b] == w[a..b]
  {
    forall k | 0 <= k < b - a ensures s[p + a..p + b][k] == w[a..b][k] {
      assert s[p..p + |w|][a + k] == s[p + a + k];
    }
  }

  /** The groups of "at 9:30pm" at `p`: hour 9, minutes 30, pm. */
  lemma GroupsHalfPastNinePm(s: string, p: nat)
    requires p + 9 <= |s| && s[p..p + 9] == "at 9:30pm"
    ensures StartsAt(AtTime, s, p)
    ensures TimeAt(s, p).hour == 9 && TimeAt(s, p).minute == Some(30) && TimeAt(s, p).period == Some(Pm)
  {
    var w := "at 9:30pm";
    forall k | 0 <= k < 9 ensures s[p + k] == w[k] {
      assert s[p..p + 9][k] == s[p + k];
    }
    SliceOfMatch(s, p, w, 0, 3);
    SliceOfMatch(s, p, w, 3, 4);
    SliceOfMatch(s, p, w, 5, 7);
    SliceOfMatch(s, p, w, 7, 9);
    assert w[0..3] == "at ";
    assert w[3..4] == "9" by { assert |w[3..4]| == 1 && w[3..4][0] == '9'; }
    assert w[5..7] == "30" && w[7..9] == "pm";
    assert s[p + 4] == w[4] == ':' && !IsDigit(s[p + 4]);
    assert HourEnd(s, p) == p + 4;
    assert MinuteStart(s, p) == p + 5;
    assert MinuteDigits(s, p) == Some("30");
    assert DigitsValue("30") == 30 by { assert "30"[..1] == "3"; }
    assert s[p + 7] == w[7] == 'p' && !IsSpace(s[p + 7]);
    assert SpaceRunEnd(s, p + 7) == p + 7;
    assert PeriodStart(s, p) == p + 7;
  }

  /** "at 9:30pm" reads as 21:30 wherever it follows text without the letter 'a'. */
  lemma HalfPastNinePm(pre: string, post: string, now: Moment, days: nat)
    requires forall q :: 0 <= q < |pre| ==> pre[q] != 'a'
    ensures DueMoment(pre + "at 9:30pm" + post, now, days) == Moment(now.day + days, 21, 30)
  {
    var s := pre + "at 9:30pm" + post;
    TimeFoundAfter(pre, "at 9:30pm", post);
    assert s[|pre|..|pre| + 9] == "at 9:30pm";
    GroupsHalfPastNinePm(s, |pre|);
  }

  /** The groups of "at 12:00pm" at `p`: hour 12, minutes 0, pm. */
  lemma GroupsNoonPm(s: string, p: nat)
    requires p + 10 <= |s| && s[p..p + 10] == "at 12:00pm"
    ensures StartsAt(AtTime, s, p)
    ensures TimeAt(s, p).hour == 12 && TimeAt(s, p).minute == Some(0) && TimeAt(s, p).period == Some(Pm)
  {
    var w := "at 12:00pm";
    forall k | 0 <= k < 10 ensures s[p + k] == w[k] {
      assert s[p..p + 10][k] == s[p + k];
    }
    SliceOfMatch(s, p, w, 0, 3);
    SliceOfMatch(s, p, w, 3, 5);
    SliceOfMatch(s, p, w, 6, 8);
    SliceOfMatch(s, p, w, 8, 10);
    assert w[0..3] == "at " && w[3..5] == "12" && w[6..8] == "00" && w[8..10] == "pm";
    assert s[p + 4] == w[4] == '2' && IsDigit(s[p + 4]);
    assert HourEnd(s, p) == p + 5;
    assert s[p + 5] == w[5] == ':';
    assert MinuteStart(s, p) == p + 6;
    assert DigitsValue("12") == 12 by { assert "12"[..1] == "1"; }
    assert DigitsValue("00") == 0 by { assert "00"[..1] == "0"; }
    assert MinuteDigits(s, p) == Some("00");
    assert s[p + 8] == w[8] == 'p' && !IsSpace(s[p + 8]);
    assert SpaceRunEnd(s, p + 8) == p + 8;
    assert PeriodStart(s, p) == p + 8;
  }

  /** "at 12:00pm" reads as noon. */
  lemma NoonPm(pre: string, post: string, now: Moment, days: nat)
    requires forall q :: 0 <= q < |pre| ==> pre[q] != 'a'
    ensures DueMoment(pre + "at 12:00pm" + post, now, days) == Moment(now.day + days, 12, 0)
  {
    var s := pre + "at 12:00pm" + post;
    TimeFoundAfter(pre, "at 12:00pm", post);
    assert s[|pre|..|pre| + 10] == "at 12:00pm";
    GroupsNoonPm(s, |pre|);
  }

  /** The groups of "at 12am" at `p`: hour 12, no minutes, am. */
  lemma GroupsMidnightAm(s: string, p: nat)
    requires p + 7 <= |s| && s[p..p + 7] == "at 12am"
    ensures StartsAt(AtTime, s, p)
    ensures TimeAt(s, p).hour == 12 && TimeAt(s, p).minute == None && TimeAt(s, p).period == Some(Am)
  {
    var w := "at 12am";
    forall k | 0 <= k < 7 ensures s[p + k] == w[k] {
      assert s[p..p + 7][k] == s[p + k];
    }
    SliceOfMatch(s, p, w, 0, 3);
    SliceOfMatch(s, p, w, 3, 5);
    SliceOfMatch(s, p, w, 5, 7);
    assert w[0..3] == "at " && w[3..5] == "12" && w[5..7] == "am";
    assert HourEnd(s, p) == p + 5;
    assert MinuteStart(s, p) == p + 5;
    assert MinuteDigits(s, p) == None;
    assert SpaceRunEnd(s, p + 5) == p + 5;
    assert PeriodStart(s, p) == p + 5;
    assert DigitsValue("12") == 12 by { assert "12"[..1] == "1"; }
  }

  /** "at 12am" reads as midnight, the missing minutes counting as 0. */
  lemma MidnightAm(pre: string, post: string, now: Moment, days: nat)
    requires forall q :: 0 <= q < |pre| ==> pre[q] != 'a'
    ensures DueMoment(pre + "at 12am" + post, now, days) == Moment(now.day + days, 0, 0)
  {
    var s := pre + "at 12am" + post;
    TimeFoundAfter(pre, "at 12am", post);
    assert s[|pre|..|pre| + 7] == "at 12am";
    GroupsMidnightAm(s, |pre|);
  }

  /** The whole of `extractDateTime` on "tomorrow at 9:30pm": the next day at 21:30, and nothing left for the name. */
  lemma TomorrowAtHalfPastNine(now: Moment, monthDay: string -> Option<Moment>)
    ensures DateTimeOf("tomorrow at 9:30pm", now, monthDay).dueDate == Some(Moment(now.day + 1, 21, 30))
  {
    var text := "tomorrow at 9:30pm";
    assert text == "tomorrow " + "at 9:30pm" + "";
    assert text[..8] == "tomorrow";
    assert Contains(text, TimeKeywords[0].0);
    assert FirstKeyFrom(text, TimeKeywords, 0) == Some(0);
    HalfPastNinePm("tomorrow ", "", now, 1);
  }

  /** Every relative-day phrase points at most a week ahead. */
  lemma TimeOffsetAtMostAWeek(k: nat)
    requires k < |TimeKeywords|
    ensures TimeKeywords[k].1 <= 7
  {
  }

  /** The conversion of a matched hour to the 24-hour clock, as the loop body writes it. */
  method ClockHour(hour: nat, period: Option<Meridiem>) returns (hours: nat)
    ensures hours == To24Hour(hour, period)
  {
    hours := hour;
    if period == Some(Pm) && hours < 12 {
      hours := hours + 12;
    }
    if period == Some(Am) && hours == 12 {
      hours := 0;
    }
  }

  /** The body of the keyword loop once `keyword` is found: the due moment and the text left. */
  method RelativeDay(text: string, now: Moment, keyword: string, days: nat)
      returns (target: Moment, cleanText: string)
    ensures target == DueMoment(text, now, days)
    ensures cleanText == RelativeCleanText(text, keyword)
  {
    target := Moment(now.day + days, now.hour, now.minute);
    cleanText := Trim(ReplaceFirst(text, keyword));
    match AtTimeMatch(text)
    case Some(m) =>
      var hours := ClockHour(m.hour, m.period);
      target := Moment(target.day, hours, m.minute.GetOr(0));
      cleanText := Trim(ReplaceFirst(cleanText, m.text));
    case None =>
  }

  /**
   * The keyword loop of `extractDateTime`: the first phrase of `table` inside the text sets the
   * day, the first `at` time sets the time of day, and the loop stops there.
   */
  method ScanRelativeDays(text: string, now: Moment, table: seq<(string, nat)>)
      returns (dueDate: Option<Moment>, cleanText: string)
    ensures DateTime(dueDate, cleanText) == RelativeDays(text, now, table)
  {
    cleanText := text;
    dueDate := None;
    var i := 0;
    while i < |table|
      invariant 0 <= i <= |table|
      invariant dueDate.None? && cleanText == text
      invariant FirstKeyFrom(text, table, i) == FirstKeyFrom(text, table, 0)
    {
      if Contains(text, table[i].0) {
        var target;
        target, cleanText := RelativeDay(text, now, table[i].0, table[i].1);
        dueDate := Some(target);
        break;
      }
      i := i + 1;
    }
  }

  /** `extractDateTime`: the keyword loop, then the `on <month> <day>` fallback. */
  method ExtractDateTime(text: string, now: Moment, monthDay: string -> Option<Moment>)
      returns (dueDate: Option<Moment>, cleanText: string)
    ensures DateTime(dueDate, cleanText) == DateTimeOf(text, now, monthDay)
  {
    dueDate, cleanText := ScanRelativeDays(text, now, TimeKeywords);
    var dateMatch := OnDateMatch(text);
    if dateMatch.Some? && dueDate.None? {
      var parsed := monthDay(dateMatch.value.dateStr);
      if parsed.Some? {
        dueDate := parsed;
        cleanText := Trim(ReplaceFirst(text, dateMatch.value.text));
      }
    }
  }

  /** A relative-day phrase decides the day: the date library's answer plays no part. */
  lemma RelativeDayIgnoresOracle(text: string, now: Moment, f: string -> Option<Moment>, g: string -> Option<Moment>)
    requires AnyKey(text, TimeKeywords)
    ensures DateTimeOf(text, now, f) == DateTimeOf(text, now, g)
  {
    var k :| 0 <= k < |TimeKeywords| && Contains(text, TimeKeywords[k].0);
    assert FirstKeyFrom(text, TimeKeywords, 0).Some?;
  }

  /** Without a relative-day phrase an `at` time is ignored: no due date, and the text is kept whole. */
  lemma NoRelativeDayNoTime(text: string, now: Moment, monthDay: string -> Option<Moment>)
    requires !AnyKey(text, TimeKeywords) && OnDateMatch(text).None?
    ensures DateTimeOf(text, now, monthDay) == DateTime(None, text)
  {
    assert FirstKeyFrom(text, TimeKeywords, 0).None?;
  }

  // ================================================================ the whole utterance

  /** `parseVoiceInput`: every extractor applied to the lower-cased utterance. */
  method ParseVoiceInput(text: string, now: Moment, monthDay: string -> Option<Moment>) returns (task: ParsedTask)
    ensures var lower := ToLower(text);
      && task.priority == ExtractPriority(lower)
      && task.category == ExtractCategory(lower)
      && task.reminderMinutes == ExtractReminder(lower)
      && task.dueDate == DateTimeOf(lower, now, monthDay).dueDate
      && task.name == TaskName(DateTimeOf(lower, now, monthDay).cleanText)
    ensures task.name != []
    ensures task.isComplete <==> task.name != Placeholder
    ensures task.isComplete <==> CoreName(DateTimeOf(ToLower(text), now, monthDay).cleanText) != []
  {
    var lowerText := ToLower(text);
    var priority := ExtractPriority(lowerText);
    var category := ExtractCategory(lowerText);
    var dueDate, cleanText := ExtractDateTime(lowerText, now, monthDay);
    var reminderMinutes := ExtractReminder(lowerText);
    var name := ExtractTaskName(cleanText);
    TaskNameShape(cleanText);
    task := ParsedTask(name, dueDate, priority, category, reminderMinutes, HasAllRequiredFields(name, dueDate));
  }

  /** `hasAllRequiredFields`: the due date is not consulted. */
  function HasAllRequiredFields(name: string, dueDate: Option<Moment>): (r: bool)
    ensures r <==> name != Placeholder && name != []
  {
    name != Placeholder && |name| > 0
  }

  // ================================================================ questions

  /** The fields a question can set; an absent field is no constraint. */
  datatype QueryFilter = QueryFilter(priority: Option<Priority>, category: Option<Category>, date: Option<string>)

  /** What `parseSmartQuery` returns: a filter, an amount of free time, or nothing understood. */
  datatype SmartQuery =
    | FilterQuery(filter: QueryFilter)
    | TimeBased(timeAvailable: nat)
    | Unknown

  /** Medium is the default priority, so it never constrains a filter. */
  function PriorityFilter(p: Priority): (r: Option<Priority>)
    ensures r.Some? <==> p != Medium
    ensures r.Some? ==> r.value == p
  {
    if p != Medium then Some(p) else None
  }

  /** `parseSmartQuery`: the first of four rules that applies decides. */
  function ParseSmartQuery(text: string, todayKey: string): (q: SmartQuery)
    ensures var lower := ToLower(text);
      (q.FilterQuery? && q.filter.date.Some?) <==> Contains(lower, "today")
    ensures var lower := ToLower(text);
      Contains(lower, "today") ==>
        q.filter.date == Some(todayKey) && q.filter.category.None? &&
        q.filter.priority == PriorityFilter(ExtractPriority(lower))
    ensures var lower := ToLower(text);
      q.TimeBased? <==>
        !Contains(lower, "today") && MinutesMatch(lower).Some? &&
        (Contains(lower, "have") || Contains(lower, "finish"))
    ensures q.TimeBased? ==> Some(q.timeAvailable) == MinutesMatch(ToLower(text))
    ensures var lower := ToLower(text);
      q.Unknown? <==>
        !Contains(lower, "today") && !q.TimeBased? &&
        !AnyIn(lower, HighKeywords) && (AnyIn(lower, MediumKeywords) || !AnyIn(lower, LowKeywords)) &&
        ExtractCategory(lower).None?
    ensures var lower := ToLower(text);
      q.FilterQuery? && q.filter.date.None? ==>
        q.filter == QueryFilter(PriorityFilter(ExtractPriority(lower)), ExtractCategory(lower), None)
    ensures q.FilterQuery? ==> q.filter.priority != Some(Medium)
    ensures q.FilterQuery? && q.filter.date.None? ==> q.filter.priority.Some? || q.filter.category.Some?
  {
    var lowerText := ToLower(text);
    TodaysImpliesToday(lowerText);
    if Contains(lowerText, "today") || Contains(lowerText, "today's") then
      FilterQuery(QueryFilter(PriorityFilter(ExtractPriority(lowerText)), None, Some(todayKey)))
    else
      var timeMatch := MinutesMatch(lowerText);
      if timeMatch.Some? && (Contains(lowerText, "have") || Contains(lowerText, "finish")) then
        TimeBased(timeMatch.value)
      else
        var priority := ExtractPriority(lowerText);
        var category := ExtractCategory(lowerText);
        if priority != Medium || category.Some? then
          FilterQuery(QueryFilter(PriorityFilter(priority), category, None))
        else
          Unknown
  }

  /** The `today's` test adds nothing: every text containing "today's" contains "today". */
  lemma TodaysImpliesToday(text: string)
    ensures Contains(text, "today's") ==> Contains(text, "today")
  {
    if Contains(text, "today's") {
      ContainsPart(text, "today's", "today", 0);
    }
  }

  /** A medium keyword reads exactly as no keyword at all. */
  lemma MediumIsIndistinguishable(text: string, todayKey: string)
    requires AnyIn(ToLower(text), MediumKeywords)
    requires !AnyIn(ToLower(text), HighKeywords) && !AnyIn(ToLower(text), LowKeywords)
    requires ExtractCategory(ToLower(text)).None?
    requires !Contains(ToLower(text), "today") && !ParseSmartQuery(text, todayKey).TimeBased?
    ensures ParseSmartQuery(text, todayKey) == Unknown
  {
  }
}
