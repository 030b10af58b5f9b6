/**
 * The four keyword tables of the voice parser, in declaration order (the order in which
 * `Object.entries` / `Object.values` visit them, which is the tie-break between labels).
 */
module Lexicons {

  datatype Priority = Low | Medium | High

  /** The category labels that have keywords; the form offers a fourth, "Other", with none. */
  datatype Category = Family | Personal | Office

  function PriorityName(p: Priority): string {
    match p
    case Low => "Low"
    case Medium => "Medium"
    case High => "High"
  }

  function CategoryName(c: Category): string {
    match c
    case Family => "Family"
    case Personal => "Personal"
    case Office => "Office"
  }

  const HighKeywords: seq<string> := ["urgent", "important", "asap", "critical", "high priority"]
  const MediumKeywords: seq<string> := ["medium", "moderate", "normal"]
  const LowKeywords: seq<string> := ["low", "minor", "whenever"]

  /** `priorityKeywords`: high, then medium, then low. */
  const PriorityTable: seq<(Priority, seq<string>)> :=
    [(High, HighKeywords), (Medium, MediumKeywords), (Low, LowKeywords)]

  const FamilyKeywords: seq<string> := ["family", "home", "kids", "spouse", "parents"]
  const PersonalKeywords: seq<string> := ["personal", "self", "me", "myself"]
  const OfficeKeywords: seq<string> := ["work", "office", "job", "meeting", "project", "client"]

  /** `categoryKeywords`: Family, then Personal, then Office. */
  const CategoryTable: seq<(Category, seq<string>)> :=
    [(Family, FamilyKeywords), (Personal, PersonalKeywords), (Office, OfficeKeywords)]

  /** `timeKeywords`: a relative-day phrase and its offset in days from today. */
  const TimeKeywords: seq<(string, nat)> :=
    [("tomorrow", 1), ("today", 0), ("in 2 days", 2), ("in 3 days", 3), ("next week", 7)]

  /** `reminderKeywords`: a lead-time phrase and its number of minutes. */
  const ReminderKeywords: seq<(string, nat)> :=
    [("5 minutes", 5), ("10 minutes", 10), ("20 minutes", 20), ("25 minutes", 25)]
}
