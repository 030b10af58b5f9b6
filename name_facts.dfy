/**
 * Why the reminder-phrase pass of `extractTaskName` never changes anything: every phrase it
 * removes contains the whole word "me" between two spaces, and the category pass before it has
 * already removed every whole word "me".
 */
module NameFacts {
  import opened Text
  import opened Lexicons
  import opened TaskNames

  /** No " me " (a whole word "me" between two spaces) occurs in `s`. */
  ghost predicate NoSpacedMe(s: string) {
    forall i :: !OccursAt(s, " me ", i)
  }

  /**
   * Where the character at `i` is kept and a " me " starts there in what is left, that " me "
   * was already in `s`, and its "me" is a whole word that the removal of `w` kept.
   */
  lemma SpacedMeAtKept(s: string, w: string, i: nat)
    requires IsWord(w) && i < |s| && !WordAt(s, w, i)
    requires OccursAt([s[i]] + RemoveFrom(s, w, true, i + 1), " me ", 0)
    ensures OccursAt(s, " me ", i) && WordAt(s, "me", i + 1) && !WordAt(s, w, i + 1)
  {
    var rest := RemoveFrom(s, w, true, i + 1);
    SpacedMeFront(s[i], rest);
    RemovedWordFront(s, w, i + 1);
    var r2 := RemoveFrom(s, w, true, i + 2);
    assert rest == [s[i + 1]] + r2;
    RemovedWordAfterWordChar(s, w, i + 2);
    var r3 := RemoveFrom(s, w, true, i + 3);
    assert r2 == [s[i + 2]] + r3;
    RemovedWordAfterWordChar(s, w, i + 3);
    assert s[i + 1] == 'm' && s[i + 2] == 'e' && s[i + 3] == ' ';
    assert s[i..i + 4] == [s[i], s[i + 1], s[i + 2], s[i + 3]] == " me ";
    assert s[i + 1..i + 3] == [s[i + 1], s[i + 2]] == "me";
  }

  /** A " me " at the front of `[c] + rest` spells itself out over `c` and the first three characters of `rest`. */
  lemma SpacedMeFront(c: char, rest: string)
    requires OccursAt([c] + rest, " me ", 0)
    ensures c == ' ' && |rest| >= 3 && rest[0] == 'm' && rest[1] == 'e' && rest[2] == ' '
  {
    var o := [c] + rest;
    assert o[..4] == " me ";
    assert c == o[..4][0];
    assert rest[0] == o[..4][1] && rest[1] == o[..4][2] && rest[2] == o[..4][3];
  }

  /** Removing the whole word "me" leaves no " me "; removing another word keeps that true. */
  lemma {:induction false} RemoveWordNoSpacedMe(s: string, w: string, i: nat)
    requires IsWord(w) && i <= |s|
    requires w == "me" || NoSpacedMe(s)
    decreases |s| - i
    ensures NoSpacedMe(RemoveFrom(s, w, true, i))
  {
    if i == |s| {
    } else if WordAt(s, w, i) {
      RemoveWordNoSpacedMe(s, w, i + |w|);
    } else {
      RemoveWordNoSpacedMe(s, w, i + 1);
      if OccursAt([s[i]] + RemoveFrom(s, w, true, i + 1), " me ", 0) {
        SpacedMeAtKept(s, w, i);
        assert false;
      }
      NoSpacedMeCons(s[i], RemoveFrom(s, w, true, i + 1));
    }
  }

  /** A character put in front of a text without " me " can only make one at the very front. */
  lemma NoSpacedMeCons(c: char, rest: string)
    requires NoSpacedMe(rest) && !OccursAt([c] + rest, " me ", 0)
    ensures NoSpacedMe([c] + rest)
  {
    var o := [c] + rest;
    forall j | 0 < j && OccursAt(o, " me ", j)
      ensures false
    {
      assert rest[j - 1..j + 3] == o[j..j + 4];
      assert OccursAt(rest, " me ", j - 1);
    }
  }

  /** A part of a text without " me " has none either. */
  lemma PartNoSpacedMe(s: string, r: string, a: nat)
    requires NoSpacedMe(s) && OccursAt(s, r, a)
    ensures NoSpacedMe(r)
  {
    forall j | OccursAt(r, " me ", j)
      ensures false
    {
      OccursPart(s, r, " me ", a, j);
    }
  }

  /** Trimming takes a slice, so it keeps " me " out. */
  lemma TrimNoSpacedMe(s: string)
    requires NoSpacedMe(s)
    ensures NoSpacedMe(Trim(s))
  {
    PartNoSpacedMe(s, Trim(s), LeadingSpace(s));
  }

  /** Stripping whole words keeps " me " out, and stripping a list that holds "me" removes it. */
  lemma {:induction false} StripWordsNoSpacedMe(s: string, ws: seq<string>)
    requires forall k :: 0 <= k < |ws| ==> IsWord(ws[k])
    requires NoSpacedMe(s) || "me" in ws
    decreases |ws|
    ensures NoSpacedMe(StripWords(s, ws))
  {
    if ws != [] {
      var prefix := ws[..|ws| - 1];
      var w := ws[|ws| - 1];
      if w == "me" {
        RemoveWordNoSpacedMe(StripWords(s, prefix), w, 0);
      } else {
        assert "me" in ws ==> "me" in prefix by {
          if "me" in ws {
            var k :| 0 <= k < |ws| && ws[k] == "me";
            assert k < |ws| - 1 && prefix[k] == "me";
          }
        }
        StripWordsNoSpacedMe(s, prefix);
        RemoveWordNoSpacedMe(StripWords(s, prefix), w, 0);
      }
      TrimNoSpacedMe(RemoveWord(StripWords(s, prefix), w));
    }
  }

  /** Stripping groups of whole words keeps " me " out, and removes it once a group holds "me". */
  lemma {:induction false} StripGroupsNoSpacedMe<L>(s: string, table: seq<(L, seq<string>)>, me: nat)
    requires forall g, k :: 0 <= g < |table| && 0 <= k < |table[g].1| ==> IsWord(table[g].1[k])
    requires me < |table| && "me" in table[me].1
    decreases |table|
    ensures NoSpacedMe(StripGroups(s, table))
  {
    var prefix := table[..|table| - 1];
    var last := table[|table| - 1].1;
    if me == |table| - 1 {
      StripWordsNoSpacedMe(StripGroups(s, prefix), last);
    } else {
      StripGroupsNoSpacedMe(s, prefix, me);
      StripWordsNoSpacedMe(StripGroups(s, prefix), last);
    }
  }

  /** Every keyword of the category table is a whole word, and "me" is a Personal keyword. */
  lemma CategoryKeywordsAreWords()
    ensures forall g, k :: 0 <= g < |CategoryTable| && 0 <= k < |CategoryTable[g].1| ==> IsWord(CategoryTable[g].1[k])
    ensures "me" in CategoryTable[1].1
  {
    assert CategoryTable[1].1[2] == "me";
  }

  /** A `remind me <k> before` phrase cannot occur in a trimmed text without " me ". */
  lemma {:induction false} StripPhrasesInert(s: string, table: seq<(string, nat)>)
    requires NoSpacedMe(s) && IsTrimmed(s)
    decreases |table|
    ensures StripPhrases(s, table) == s
  {
    if table != [] {
      StripPhrasesInert(s, table[..|table| - 1]);
      var phrase := ReminderPhrase(table[|table| - 1].0);
      forall j
        ensures !OccursAt(s, phrase, j)
      {
        if OccursAt(s, phrase, j) {
          OccursPart(s, phrase, " me ", j, 6);
        }
      }
      RemoveFromNoMatch(s, phrase, false, 0);
    }
  }

  /**
   * The removal of `remind me <k> before` phrases in `extractTaskName` never changes the name:
   * the whole word "me" was already removed with the category keywords.
   */
  lemma ReminderStripIsInert(text: string)
    ensures var afterKeywords := StripGroups(StripGroups(Prepared(text), PriorityTable), CategoryTable);
      StripPhrases(afterKeywords, ReminderKeywords) == afterKeywords
  {
    var afterPriority := StripGroups(Prepared(text), PriorityTable);
    CategoryKeywordsAreWords();
    StripGroupsNoSpacedMe(afterPriority, CategoryTable, 1);
    StripPhrasesInert(StripGroups(afterPriority, CategoryTable), ReminderKeywords);
  }
}
