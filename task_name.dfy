/**
 * The task-name half of the voice parser (`extractTaskName`): the leading filler, the polite
 * suffix, the priority and category keywords and the reminder phrases are cut from the text,
 * spaces are collapsed and the first character is upper-cased. The keyword tables are
 * parameters of the step-by-step methods; `CoreName` and `TaskName` fix them to the parser's own.
 */
module TaskNames {
  import opened Text
  import opened Patterns
  import opened Lexicons

  /** The name the parser falls back on. */
  const Placeholder: string := "New Task"

  /** The name after the leading filler and the polite suffix are gone; trimmed text without either is kept. */
  function Prepared(text: string): (r: string)
    ensures IsTrimmed(r) && |r| <= |text|
    ensures Lowercase(text) ==> Lowercase(r)
    ensures IsTrimmed(text) && !HasLeadingFiller(text) && !HasPoliteSuffix(text) ==> r == text
  {
    Trim(StripPoliteSuffix(StripLeadingFiller(text)))
  }

  /** Each keyword of `ws` in turn removed as a whole word, trimming after each; none present, nothing changes. */
  function StripWords(s: string, ws: seq<string>): (r: string)
    decreases |ws|
    ensures ws != [] ==> IsTrimmed(r)
    ensures IsTrimmed(s) ==> IsTrimmed(r)
    ensures Lowercase(s) ==> Lowercase(r)
    ensures IsTrimmed(s) && (forall k :: 0 <= k < |ws| ==> NoWordIn(s, ws[k])) ==> r == s
  {
    if ws == [] then s
    else
      assert forall k :: 0 <= k < |ws| - 1 ==> ws[..|ws| - 1][k] == ws[k];
      Trim(RemoveWord(StripWords(s, ws[..|ws| - 1]), ws[|ws| - 1]))
  }

  /** `StripWords` for each group of keywords of `table` in turn; none present, nothing changes. */
  function StripGroups<L>(s: string, table: seq<(L, seq<string>)>): (r: string)
    decreases |table|
    ensures IsTrimmed(s) ==> IsTrimmed(r)
    ensures Lowercase(s) ==> Lowercase(r)
    ensures IsTrimmed(s) && (forall g, k :: 0 <= g < |table| && 0 <= k < |table[g].1| ==> NoWordIn(s, table[g].1[k])) ==>
      r == s
  {
    if table == [] then s
    else
      assert forall g :: 0 <= g < |table| - 1 ==> table[..|table| - 1][g] == table[g];
      StripWords(StripGroups(s, table[..|table| - 1]), table[|table| - 1].1)
  }

  /** The phrase `remind me <keyword> before` for a reminder keyword. */
  function ReminderPhrase(keyword: string): (r: string)
    ensures OccursAt(r, " me ", 6)
  {
    "remind me " + keyword + " before"
  }

  /** Every `remind me <key> before` of `table` in turn removed, trimming after each; none present, nothing changes. */
  function StripPhrases(s: string, table: seq<(string, nat)>): (r: string)
    decreases |table|
    ensures IsTrimmed(s) ==> IsTrimmed(r)
    ensures Lowercase(s) ==> Lowercase(r)
    ensures IsTrimmed(s) && (forall k :: 0 <= k < |table| ==> !Contains(s, ReminderPhrase(table[k].0))) ==> r == s
  {
    if table == [] then s
    else
      assert forall k :: 0 <= k < |table| - 1 ==> table[..|table| - 1][k] == table[k];
      Trim(ReplaceAll(StripPhrases(s, table[..|table| - 1]), ReminderPhrase(table[|table| - 1].0)))
  }

  /** What the clean-up steps of `extractTaskName` leave of the text, for the given keyword tables. */
  function NameCore<P, C>(text: string, priorities: seq<(P, seq<string>)>, categories: seq<(C, seq<string>)>,
                          reminders: seq<(string, nat)>): string
  {
    var afterKeywords := StripGroups(StripGroups(Prepared(text), priorities), categories);
    Trim(CollapseSpaces(StripPhrases(afterKeywords, reminders)))
  }

  /** Whatever the tables, the clean-up leaves a trimmed text without a run of spaces, lower-case if the input was. */
  lemma NameCoreShape<P, C>(text: string, priorities: seq<(P, seq<string>)>, categories: seq<(C, seq<string>)>,
                            reminders: seq<(string, nat)>)
    ensures var r := NameCore(text, priorities, categories, reminders);
      IsTrimmed(r) && NoDoubleSpace(r) && (Lowercase(text) ==> Lowercase(r))
  {
  }

  /** What is left of the text once every clean-up step of `extractTaskName` has run. */
  function CoreName(text: string): (r: string)
    ensures IsTrimmed(r) && NoDoubleSpace(r)
    ensures Lowercase(text) ==> Lowercase(r)
  {
    NameCoreShape(text, PriorityTable, CategoryTable, ReminderKeywords);
    NameCore(text, PriorityTable, CategoryTable, ReminderKeywords)
  }

  /** The last step of `extractTaskName`: the placeholder for nothing, else the first character upper-cased. */
  function Capitalise(c: string): (r: string)
    ensures r != []
    ensures c == [] ==> r == Placeholder
    ensures c != [] ==> |r| == |c| && r[0] == ToUpperChar(c[0]) && r[1..] == c[1..]
    ensures IsTrimmed(c) && NoDoubleSpace(c) ==> IsTrimmed(r) && NoDoubleSpace(r)
  {
    if c == [] then Placeholder
    else
      SliceKeepsSingleSpaces(c, 1, |c|);
      assert c[1..] == c[1..|c|];
      if IsTrimmed(c) && NoDoubleSpace(c) then
        ConsNoDoubleSpace(ToUpperChar(c[0]), c[1..]);
        [ToUpperChar(c[0])] + c[1..]
      else [ToUpperChar(c[0])] + c[1..]
  }

  /** For lower-case text the placeholder comes out exactly when there is nothing to capitalise. */
  lemma CapitalisePlaceholder(c: string)
    requires Lowercase(c)
    ensures Capitalise(c) == Placeholder <==> c == []
  {
    if c != [] && Capitalise(c) == Placeholder {
      assert false;
    }
  }

  /** `extractTaskName`: the placeholder when nothing is left, else what is left with its first character upper-cased. */
  function TaskName(text: string): (r: string)
    ensures r != []
    ensures CoreName(text) == [] ==> r == Placeholder
    ensures CoreName(text) != [] ==>
      |r| == |CoreName(text)| && r[0] == ToUpperChar(CoreName(text)[0]) && r[1..] == CoreName(text)[1..]
  {
    Capitalise(CoreName(text))
  }

  /** The inner loop of a whole-word pass: each keyword of one group removed in turn. */
  method StripKeywords(name: string, keywords: seq<string>) returns (r: string)
    ensures r == StripWords(name, keywords)
  {
    r := name;
    for k := 0 to |keywords|
      invariant r == StripWords(name, keywords[..k])
    {
      assert keywords[..k + 1][..k] == keywords[..k];
      r := Trim(RemoveWord(r, keywords[k]));
    }
    assert keywords[..|keywords|] == keywords;
  }

  /** One whole-word pass of `extractTaskName`: every keyword of every group of `table`, in order. */
  method StripKeywordGroups<L>(name: string, table: seq<(L, seq<string>)>) returns (r: string)
    ensures r == StripGroups(name, table)
  {
    r := name;
    for g := 0 to |table|
      invariant r == StripGroups(name, table[..g])
    {
      assert table[..g + 1][..g] == table[..g];
      r := StripKeywords(r, table[g].1);
    }
    assert table[..|table|] == table;
  }

  /** The `remind me <k> before` pass of `extractTaskName`. */
  method StripReminderPhrases(name: string, table: seq<(string, nat)>) returns (r: string)
    ensures r == StripPhrases(name, table)
  {
    r := name;
    for k := 0 to |table|
      invariant r == StripPhrases(name, table[..k])
    {
      assert table[..k + 1][..k] == table[..k];
      r := Trim(ReplaceAll(r, ReminderPhrase(table[k].0)));
    }
    assert table[..|table|] == table;
  }

  /** The clean-up passes of `extractTaskName`, step by step: `name` is reassigned by each pass in turn. */
  method CleanCore<P, C>(text: string, priorities: seq<(P, seq<string>)>, categories: seq<(C, seq<string>)>,
                         reminders: seq<(string, nat)>) returns (name: string)
    ensures name == NameCore(text, priorities, categories, reminders)
  {
    name := Trim(StripPoliteSuffix(StripLeadingFiller(text)));
    name := StripKeywordGroups(name, priorities);
    name := StripKeywordGroups(name, categories);
    name := StripReminderPhrases(name, reminders);
    name := Trim(CollapseSpaces(name));
  }

  /** The body of `extractTaskName`: the clean-up, then the placeholder or the capital first letter. */
  method CleanName<P, C>(text: string, priorities: seq<(P, seq<string>)>, categories: seq<(C, seq<string>)>,
                         reminders: seq<(string, nat)>) returns (name: string)
    ensures name == Capitalise(NameCore(text, priorities, categories, reminders))
  {
    name := CleanCore(text, priorities, categories, reminders);
    if name == [] {
      name := Placeholder;
    } else {
      name := [ToUpperChar(name[0])] + name[1..];
    }
  }

  /** `extractTaskName`, over the parser's own keyword tables. */
  method ExtractTaskName(text: string) returns (name: string)
    ensures name == TaskName(text)
  {
    name := CleanName(text, PriorityTable, CategoryTable, ReminderKeywords);
  }

  /**
   * The name is never empty. For lower-case text it is the placeholder exactly when nothing is
   * left after the clean-up; otherwise it is trimmed, has no run of spaces, and starts upper-cased.
   */
  lemma TaskNameShape(text: string)
    requires Lowercase(text)
    ensures TaskName(text) != []
    ensures TaskName(text) == Placeholder <==> CoreName(text) == []
    ensures CoreName(text) != [] ==>
      && IsTrimmed(TaskName(text)) && NoDoubleSpace(TaskName(text))
      && TaskName(text)[0] == ToUpperChar(CoreName(text)[0])
  {
    CapitalisePlaceholder(CoreName(text));
  }
}
