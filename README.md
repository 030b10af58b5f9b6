# Task-Management: a verified model of the voice parser and the task stores

This project models the core of a mobile task-management app in Dafny:

- the **voice parser** (`src/services/voiceParser.ts`). It turns a spoken or typed sentence into a task draft. The draft holds a name, a due date, a priority, a category, a reminder lead time and a completeness flag. The parser also turns a question into a task filter or a time budget.
- the **database service** (`src/services/database.ts`). It keeps tasks as one JSON list in the device's key-value store and gives them numeric ids.
- the **tasks slice** of the Redux store (`src/redux/tasksSlice.ts`). This is the list the screens show, with its loading flag, last error and current filter, and the thunks that call the database.
- the **storage service** (`src/services/storage.ts`). This is a second task store, with string ids.

Modules, one per file:

| file | module | what it holds |
|---|---|---|
| `wrappers.dfy` | `Wrappers` | `Option` and `Result` |
| `lexicons.dfy` | `Lexicons` | the priority, category, relative-day and reminder keyword tables, in declaration order |
| `text.dfy` | `Text` | the JavaScript string operations the parser uses: `toLowerCase`, `includes`, `replace` (first occurrence), `trim`, and the global whole-word, phrase and `\s{2,}` replacements |
| `patterns.dfy` | `Patterns` | recognisers for the four regular expressions, each searched leftmost-first as `String.prototype.match` does |
| `task_name.dfy` | `TaskNames` | `extractTaskName`, as functions and as the step-by-step passes of the source |
| `name_facts.dfy` | `NameFacts` | why the reminder-phrase pass of `extractTaskName` never changes the name |
| `voice_parser.dfy` | `VoiceParser` | the extractors, `parseVoiceInput` and `parseSmartQuery` |
| `task_records.dfy` | `TaskRecords` | the task record (generic in its id type), `Partial<Task>` patches, and the list operations both stores share |
| `database.dfy` | `Database` | the database service: a class over the stored list |
| `tasks_slice.dfy` | `TasksSlice` | the reducer as a pure `Reduce`, the class whose methods are its cases, and the thunks |
| `storage.dfy` | `Storage` | the storage service: a class over its stored list |

Abstractions:

- The clock is a parameter `now`. A date is an abstract `Moment`: a day number plus the hour and minute of that day.
- In the parser, the date library's `parse(dateStr, 'MMMM d', new Date())` followed by `isValid` is an oracle, `monthDay: string -> Option<Moment>`.
- `format(new Date(), 'yyyy-MM-dd')` is the parameter `todayKey`.
- In the database filter, `new Date(d).toISOString().split('T')[0]` is an oracle, `dateKey: string -> Option<string>`. `None` stands for the `RangeError` it throws on an invalid date.
- A store's key-value entry is a field `stored: Option<seq<...>>`. `None` means absent, empty or unreadable; each of these reads as `[]`.
- A failed write is a parameter `writeError: Option<string>`. The database service swallows it. The storage service passes it on as `Err`.

Two behaviours of the code are easy to get wrong, and the model follows the code in both:

- **Category of "urgent meeting ...".** One might expect "urgent meeting tomorrow at 3pm remind me 10 minutes before" to be an Office task. `extractCategory` (src/services/voiceParser.ts:68-75) tests the groups of src/services/voiceParser.ts:19-23 in order with `includes`. The Personal keyword "me" occurs inside "meeting", and Personal comes before Office, so the category is Personal (`VoiceParser.MeetingIsPersonal`).
- **Re-parsing a name.** Parsing a name the parser produced need not give it back. The name of "today today" is "Today": `extractTaskName` (src/services/voiceParser.ts:136-165) never removes the relative-day words. Parsing "Today" again lower-cases it, and the "today" keyword of src/services/voiceParser.ts:25-31 is then removed by `extractDateTime` (src/services/voiceParser.ts:84), which leaves "New Task". No idempotence is claimed here.

## Model

| member | source | states |
|---|---|---|
| `Text.ToLower` | src/services/voiceParser.ts:41 | same length; each capital A to Z becomes the lower-case letter at the same offset in the alphabet; every other character is kept; no capital is left |
| `Text.Contains` | src/services/voiceParser.ts:61 | `includes` holds exactly when the pattern occurs at some index |
| `Text.ReplaceFirst` | src/services/voiceParser.ts:84 | the first occurrence of the pattern is cut out and everything before and after it kept; text without the pattern is unchanged; lower case is kept |
| `Text.Trim` | src/services/voiceParser.ts:140 | the result is a slice that neither starts nor ends with whitespace, starts after exactly the leading whitespace, equals an already-trimmed input, and keeps lower case and single spacing |
| `Text.TrimRemovesOnlySpace` | src/services/voiceParser.ts:140 | everything trimmed away, at either end, is whitespace |
| `Text.RemoveWord` | src/services/voiceParser.ts:144 | text with no whole-word match is unchanged; otherwise everything before the leftmost whole-word match is kept, the match goes, and the scan goes on after it; never longer; lower case kept |
| `Text.RemovedWordFront` | src/services/voiceParser.ts:144 | a whole-word removal never removes the character right after a match |
| `Text.ReplaceAll` | src/services/voiceParser.ts:155 | text without the phrase is unchanged; otherwise everything before the leftmost occurrence is kept, the occurrence goes, and the scan goes on after it; never longer; lower case kept |
| `Text.RemoveFromUpTo` | src/services/voiceParser.ts:144-155 | a stretch of text in which no match starts is copied to the result unchanged |
| `Text.RemoveFromNoMatch` | src/services/voiceParser.ts:144-155 | from a position after which nothing matches, the rest of the text is kept as it is |
| `Text.RemoveFromFirstMatch` | src/services/voiceParser.ts:144-155 | the text up to the first match is kept, the match is dropped, and the replacement resumes right after it |
| `Text.RemoveFromKeepsCase` | src/services/voiceParser.ts:144-155 | removing matches from lower-case text leaves lower-case text |
| `Text.CollapseSpaces` | src/services/voiceParser.ts:158 | no two whitespace characters remain in a row; empty exactly when the input is; whitespace at the front stays whitespace; lower case is kept |
| `Text.CollapseKeepsTokens` | src/services/voiceParser.ts:158 | every non-space character is kept, in order, and every run of whitespace stays exactly one whitespace character |
| `Text.CollapseSingleSpaced` | src/services/voiceParser.ts:158 | text with no two whitespace characters in a row is left unchanged |
| `Text.DigitsValue` | src/services/voiceParser.ts:88-89 | the decimal value of a digit string: below 10 to the power of its length |
| `Text.DigitsAppend` | src/services/voiceParser.ts:88-89 | the value of two digit strings side by side is the first shifted by the second's length plus the second |
| `Patterns.Find` | src/services/voiceParser.ts:86 | `match` reports the leftmost position where the expression matches, or no match at all |
| `Patterns.TimeAt` | src/services/voiceParser.ts:86-90 | the whole match starts with "at ", occurs at the match position and ends past the optional period; the hour is the value of the one or two hour digits; the minutes are the value of the two minute digits exactly when they are present; the period is the `am`/`pm` after optional whitespace |
| `Patterns.MinuteDigits` | src/services/voiceParser.ts:86 | there are minutes exactly when two digits follow the hour and optional colon, and they are those two digits |
| `Patterns.AtTimeMatch` | src/services/voiceParser.ts:86 | there is a time match exactly when the expression matches somewhere, and its groups are those of the leftmost match |
| `Patterns.DateAt` | src/services/voiceParser.ts:104-106 | the captured date string follows "on " at the match position and runs to the end of the day digits, past an ordinal suffix when there is one |
| `Patterns.OnDateMatch` | src/services/voiceParser.ts:104 | there is a date match exactly when the expression matches somewhere, and it is the one at the leftmost match |
| `Patterns.RemindMeMatch` | src/services/voiceParser.ts:128-130 | there is a number exactly when `remind me N minutes before` matches somewhere; it is the value of the digit run at the leftmost match |
| `Patterns.MinutesMatch` | src/services/voiceParser.ts:189-193 | there is a number exactly when `(\d+)\s*minutes?` matches somewhere; it is the value of the digit run at the leftmost match |
| `Patterns.StripLeadingFiller` | src/services/voiceParser.ts:138 | a prefix goes exactly when the text starts with add/create/new/make and whitespace; its length is that of the verb, the whitespace and the optional "a", "task" and "to" each with their whitespace; what is left starts with a non-space |
| `Patterns.StripPoliteSuffix` | src/services/voiceParser.ts:139 | only a suffix goes, and only when the text ends in whitespace plus please/thanks/thank you; the polite word and all the whitespace before it go, and what is left ends with a non-space |
| `Patterns.PoliteLength` | src/services/voiceParser.ts:139 | 0 exactly when no polite word ends the text after whitespace; otherwise the length of that word, 6 or 9, with whitespace right before it |
| `Patterns.SkipGroup` | src/services/voiceParser.ts:138 | an optional group `word\s+` is skipped exactly when the word is followed by whitespace, and then all of that whitespace is skipped |
| `TaskNames.Prepared` | src/services/voiceParser.ts:137-140 | the filler-and-suffix step gives trimmed text, no longer than the input, lower case kept; trimmed text with no filler and no polite suffix is unchanged |
| `TaskNames.StripWords` | src/services/voiceParser.ts:143-145 | one group's whole-word passes keep the text trimmed and lower-case, and change nothing when no word of the group occurs as a whole word |
| `TaskNames.StripKeywords` | src/services/voiceParser.ts:143-145 | the `forEach` loop over one group computes `StripWords` |
| `TaskNames.StripGroups` | src/services/voiceParser.ts:142-152 | the passes over every group keep the text trimmed and lower-case, and change nothing when no keyword occurs as a whole word |
| `TaskNames.StripKeywordGroups` | src/services/voiceParser.ts:142-146 | the nested loops over a keyword table compute `StripGroups` |
| `TaskNames.StripPhrases` | src/services/voiceParser.ts:154-156 | the reminder-phrase passes keep the text trimmed and lower-case, and change nothing when no phrase occurs |
| `TaskNames.StripReminderPhrases` | src/services/voiceParser.ts:154-156 | the `forEach` loop over the reminder keys computes `StripPhrases` |
| `TaskNames.NameCoreShape` | src/services/voiceParser.ts:137-158 | for any keyword tables, the clean-up leaves trimmed text with no run of spaces, lower-case if the input was |
| `TaskNames.CoreName` | src/services/voiceParser.ts:137-158 | the same, for the parser's own tables |
| `TaskNames.CleanCore` | src/services/voiceParser.ts:137-158 | the sequence of reassignments of `name` computes the clean-up |
| `TaskNames.Capitalise` | src/services/voiceParser.ts:160-164 | never empty; "New Task" for empty text; otherwise the same length with only the first character upper-cased; trimming and single spacing kept |
| `TaskNames.CapitalisePlaceholder` | src/services/voiceParser.ts:160-164 | for lower-case text, "New Task" comes out exactly when there was nothing left |
| `TaskNames.CleanName` | src/services/voiceParser.ts:137-164 | the body of `extractTaskName` computes the clean-up followed by capitalisation |
| `TaskNames.TaskName` | src/services/voiceParser.ts:136-165 | never empty; "New Task" when the clean-up leaves nothing; otherwise the cleaned text with its first character upper-cased and the rest kept |
| `TaskNames.ExtractTaskName` | src/services/voiceParser.ts:136-165 | `extractTaskName` with the parser's tables |
| `TaskNames.TaskNameShape` | src/services/voiceParser.ts:136-165 | the name is never empty; it is "New Task" exactly when nothing is left; otherwise it is trimmed, singly spaced, and starts with the upper-cased first character |
| `NameFacts.RemoveWordNoSpacedMe` | src/services/voiceParser.ts:150 | removing the whole word "me" leaves no " me ", and removing other words keeps that so |
| `NameFacts.StripWordsNoSpacedMe` | src/services/voiceParser.ts:148-152 | a keyword group holding "me" leaves no " me " behind |
| `NameFacts.StripGroupsNoSpacedMe` | src/services/voiceParser.ts:148-152 | the category passes leave no " me " behind |
| `NameFacts.CategoryKeywordsAreWords` | src/services/voiceParser.ts:19-23 | every category keyword starts and ends with a word character, and "me" is a Personal keyword |
| `NameFacts.StripPhrasesInert` | src/services/voiceParser.ts:154-156 | no `remind me <k> before` phrase can occur in trimmed text without " me " |
| `NameFacts.ReminderStripIsInert` | src/services/voiceParser.ts:148-156 | the reminder-phrase pass never changes the name: it is dead code |
| `VoiceParser.FirstGroupFrom` | src/services/voiceParser.ts:60-64 | the first keyword group, in table order, with a keyword inside the text; none earlier has one |
| `VoiceParser.FirstKeyFrom` | src/services/voiceParser.ts:122-126 | the first table key, in order, inside the text; no earlier key is inside it |
| `VoiceParser.ExtractPriority` | src/services/voiceParser.ts:59-66 | High exactly when a high keyword occurs; Low exactly when a low one does and no high or medium one does; otherwise Medium |
| `VoiceParser.ExtractCategory` | src/services/voiceParser.ts:68-75 | Family, then Personal, then Office, each exactly when its keywords occur and no earlier group's do; none when no keyword occurs |
| `VoiceParser.ExtractReminder` | src/services/voiceParser.ts:121-134 | "5 minutes" gives 5; otherwise "10 minutes" gives 10, then "20 minutes" gives 20; a lexicon phrase gives one of 5, 10, 20, 25; with none, the `remind me N minutes before` number |
| `VoiceParser.LowInsideBelow` | src/services/voiceParser.ts:59-66 | substring matching: "below" alone makes a task Low |
| `VoiceParser.MeetingIsPersonal` | src/services/voiceParser.ts:68-75 | "meeting" or "remind me" without a family word gives Personal, not Office |
| `VoiceParser.ReminderShadowedByFive` | src/services/voiceParser.ts:121-126 | "15 minutes" and "25 minutes" give 5, because "5 minutes" is scanned first |
| `VoiceParser.RemindMeFiveHoldsFiveMinutes` | src/services/voiceParser.ts:128-130 | a `remind me N minutes before` whose N ends in 5 contains "5 minutes" |
| `VoiceParser.ReminderNeverEndsInFive` | src/services/voiceParser.ts:121-134 | the only reminder ending in the digit 5 ever produced is 5 |
| `VoiceParser.ReminderNeverTwentyFive` | src/services/voiceParser.ts:33-38 | the lexicon entry for 25 minutes is unreachable |
| `VoiceParser.To24Hour` | src/services/voiceParser.ts:92-93 | no period keeps the hour; for hours 1 to 12 with a period, the hour is kept modulo 12, below 24, before noon exactly for am; hour 0 gives 12 with pm and 0 otherwise; hours above 12 are kept |
| `VoiceParser.TwelveHourClock` | src/services/voiceParser.ts:92-93 | the conversion keeps the hour modulo 12 |
| `VoiceParser.ClockHour` | src/services/voiceParser.ts:88-93 | the two conditional updates of `hours` compute `To24Hour` |
| `VoiceParser.DueMoment` | src/services/voiceParser.ts:83-95 | the due day is `days` after today; with an `at` time, the hour is the 24-hour reading of its hour and period and the minutes are its minutes or 0; without one, the time of day is that of now |
| `VoiceParser.RelativeCleanText` | src/services/voiceParser.ts:84-96 | never longer, at least the keyword shorter when it occurs, lower case kept; without an `at` time, the text with the keyword cut out, trimmed |
| `VoiceParser.RelativeDay` | src/services/voiceParser.ts:82-99 | the loop body computes `DueMoment` and `RelativeCleanText` |
| `VoiceParser.RelativeDays` | src/services/voiceParser.ts:81-102 | a due date exactly when some relative-day phrase occurs; then the first phrase in table order sets the offset, the due moment and the clean text; otherwise the text is untouched |
| `VoiceParser.ScanRelativeDays` | src/services/voiceParser.ts:81-102 | the keyword loop with its `break` computes `RelativeDays` |
| `VoiceParser.AbsoluteDate` | src/services/voiceParser.ts:104-116 | a due date only from an `on <month> <day>` match; when the date library accepts the captured string, that date with the match cut out of the text; otherwise the text is untouched |
| `VoiceParser.DateTimeOf` | src/services/voiceParser.ts:77-119 | a relative-day phrase decides the result exactly as `RelativeDays` does, 0 to 7 days ahead; without one, the `on` date decides |
| `VoiceParser.TomorrowAndToday` | src/services/voiceParser.ts:81-83 | "tomorrow" always gives the next day; "today" without "tomorrow" gives the same day |
| `VoiceParser.TimeFoundAfter` | src/services/voiceParser.ts:86 | after text without the letter "a", an `at` time is the leftmost match |
| `VoiceParser.GroupsHalfPastNinePm` | src/services/voiceParser.ts:86-90 | "at 9:30pm" matches with hour 9, minutes 30 and pm |
| `VoiceParser.GroupsNoonPm` | src/services/voiceParser.ts:86-90 | "at 12:00pm" matches with hour 12, minutes 0 and pm |
| `VoiceParser.GroupsMidnightAm` | src/services/voiceParser.ts:86-90 | "at 12am" matches with hour 12, no minutes and am |
| `VoiceParser.HalfPastNinePm` | src/services/voiceParser.ts:86-95 | "at 9:30pm" gives 21:30 on the due day |
| `VoiceParser.NoonPm` | src/services/voiceParser.ts:86-95 | "at 12:00pm" gives 12:00 on the due day |
| `VoiceParser.MidnightAm` | src/services/voiceParser.ts:86-95 | "at 12am" gives 0:00 on the due day, the minutes defaulting to 0 |
| `VoiceParser.TomorrowAtHalfPastNine` | src/services/voiceParser.ts:77-102 | "tomorrow at 9:30pm" is due the next day at 21:30 |
| `VoiceParser.TimeOffsetAtMostAWeek` | src/services/voiceParser.ts:25-31 | every relative-day offset is at most 7 days |
| `VoiceParser.ExtractDateTime` | src/services/voiceParser.ts:77-119 | the loop and the fallback compute `DateTimeOf` |
| `VoiceParser.RelativeDayIgnoresOracle` | src/services/voiceParser.ts:81-116 | with a relative-day phrase, the date library's answer plays no part |
| `VoiceParser.NoRelativeDayNoTime` | src/services/voiceParser.ts:81-118 | without a relative-day phrase or an `on` date, an `at` time is ignored: no due date, text unchanged |
| `VoiceParser.ParseVoiceInput` | src/services/voiceParser.ts:40-57 | every field comes from its extractor on the lower-cased text; the name is never empty; `isComplete` holds exactly when the name is not "New Task", i.e. when the clean-up left something |
| `VoiceParser.HasAllRequiredFields` | src/services/voiceParser.ts:167-169 | holds exactly when the name is neither "New Task" nor empty |
| `VoiceParser.PriorityFilter` | src/services/voiceParser.ts:184 | Medium never constrains a filter; any other priority is kept |
| `VoiceParser.ParseSmartQuery` | src/services/voiceParser.ts:171-211 | a date filter exactly when "today" occurs; time-based, with the captured minutes, exactly when a minutes count and have/finish occur without "today"; unknown exactly when no rule applies; otherwise the filter holds the extracted priority (Medium dropped) and category; a filter never holds Medium and is never empty |
| `VoiceParser.TodaysImpliesToday` | src/services/voiceParser.ts:178 | the "today's" test adds nothing to the "today" test |
| `VoiceParser.MediumIsIndistinguishable` | src/services/voiceParser.ts:197-210 | a question with only medium keywords is unknown |
| `TaskRecords.Merge` | src/services/database.ts:70 | each of the ten fields takes the patch's value when the patch has one, and keeps the old value otherwise |
| `TaskRecords.MergeNoChange` | src/services/database.ts:70 | the empty patch changes nothing |
| `TaskRecords.MergeTwice` | src/services/database.ts:70 | two patches in a row act as one in which the later field wins |
| `TaskRecords.MergeIdempotent` | src/services/database.ts:70 | applying the same patch twice is applying it once |
| `TaskRecords.WithId` | src/services/database.ts:42-45 | the new record has the given id and the other nine fields of the old one |
| `TaskRecords.WithoutId` | src/services/database.ts:62 | no kept task has the id; every kept task was there; every task without the id is kept |
| `TaskRecords.WithoutIdAppend` | src/services/database.ts:62 | filtering distributes over concatenation, so order is kept |
| `TaskRecords.WithoutAbsentId` | src/services/database.ts:62 | nothing is removed when no task has the id |
| `TaskRecords.WithoutIdTwice` | src/services/database.ts:60-64 | deleting twice is deleting once |
| `TaskRecords.WithoutIdCommutes` | src/services/database.ts:62 | deletions of two ids commute |
| `TaskRecords.FirstIndexWithId` | src/services/database.ts:68 | the index of the first task with the id, or none when no task has it |
| `TaskRecords.FindWithId` | src/services/database.ts:57 | the task at the first index with the id; none exactly when no task has it |
| `TaskRecords.UpdateFirst` | src/services/database.ts:68-72 | same length; only the first task with the id is patched; unchanged when there is none |
| `TaskRecords.UpdateAll` | src/services/storage.ts:67-69 | same length; every task with the id is patched, the others are kept |
| `TaskRecords.UpdateFirstIsUpdateAll` | src/services/storage.ts:67-69 | with the id at most once, the two stores' updates agree |
| `TaskRecords.UpdateFirstMissesRepeats` | src/services/storage.ts:67-69 | with a repeated id they disagree: the database patches only the first copy |
| `Database.MaxId` | src/services/database.ts:44 | an upper bound of every id (a missing id counting as 0), attained by one of them |
| `Database.NewId` | src/services/database.ts:44 | 1 for an empty store; above every stored id; one more than one of them |
| `Database.NewIdIsFresh` | src/services/database.ts:44 | no stored task already has the new id |
| `Database.Added` | src/services/database.ts:42-46 | the new task under its new id, in front of the old list |
| `Database.DeleteUndoesAdd` | src/services/database.ts:40-64 | deleting the id just given restores the list |
| `Database.FindAfterAdd` | src/services/database.ts:40-58 | looking up the id just given finds the new task |
| `Database.Keep` | src/services/database.ts:81-89 | a task passes exactly when it meets every truthy criterion; it throws exactly when it meets the priority and category criteria and its due date is unparsable under a date criterion |
| `Database.FilterTasks` | src/services/database.ts:75-90 | fails exactly when some task's date throws; otherwise keeps exactly the tasks that pass |
| `Database.FilterTasksAppend` | src/services/database.ts:81-89 | filtering distributes over concatenation, so order is kept |
| `Database.EmptyFilterKeepsAll` | src/services/database.ts:75-90 | the empty filter returns every task |
| `Database.NoDateNeverFails` | src/services/database.ts:84-86 | without a date criterion nothing is parsed and nothing fails |
| `Database.UndatedPassesDateTest` | src/services/database.ts:84-87 | a task without a due date passes any date criterion |
| `Database.TaskDatabase.Tasks` | src/services/database.ts:22-30 | `[]` when nothing is stored |
| `Database.TaskDatabase.SetTasks` | src/services/database.ts:32-38 | a failed write is swallowed and leaves the store as it was |
| `Database.TaskDatabase.GetAllTasks` | src/services/database.ts:51-53 | the stored list, or `[]` |
| `Database.TaskDatabase.AddTask` | src/services/database.ts:40-49 | returns `NewId`; a successful write stores `Added` |
| `Database.TaskDatabase.GetTaskById` | src/services/database.ts:55-58 | the task at the first index with the id; none exactly when no task has it |
| `Database.TaskDatabase.DeleteTask` | src/services/database.ts:60-64 | stores the list without the id |
| `Database.TaskDatabase.UpdateTask` | src/services/database.ts:66-73 | nothing is written when no task has the id; otherwise the first match is patched |
| `Database.TaskDatabase.GetTasksByFilter` | src/services/database.ts:75-90 | the stored list through `FilterTasks` |
| `TasksSlice.ErrorMessage` | src/redux/tasksSlice.ts:73 | never empty; the message when it is truthy, else "Failed to fetch tasks" |
| `TasksSlice.Reduce` | src/redux/tasksSlice.ts:53-101 | pending sets loading and clears the error; settling clears loading; a rejection records `ErrorMessage` of its message, and nothing else sets an error; `clearFilter` empties the filter, a filtered fetch remembers its own, and nothing else changes it; only a fulfilled fetch or a task action changes the list: a fetch shows its payload, create puts the task in front, remove gives `WithoutId` of the old list, modify gives `UpdateFirst` of it |
| `TasksSlice.ReduceKeepsErrorMeaningful` | src/redux/tasksSlice.ts:63-87 | the initial state has no empty error, and no action introduces one |
| `TasksSlice.TaskActionsTouchOnlyTasks` | src/redux/tasksSlice.ts:88-99 | create, remove and modify change only the list |
| `TasksSlice.FetchLifecycle` | src/redux/tasksSlice.ts:63-87 | pending sets loading and clears the error; settling clears loading; rejection records the message |
| `TasksSlice.FulfilledKeepsError` | src/redux/tasksSlice.ts:67-83 | a successful fetch leaves an earlier error in place |
| `TasksSlice.UnfilteredFetchKeepsFilter` | src/redux/tasksSlice.ts:57-70 | an unfiltered fetch keeps the remembered filter; `clearFilter` empties it and keeps the list |
| `TasksSlice.RemoveIsIdempotent` | src/redux/tasksSlice.ts:91-93 | removing an id twice is removing it once |
| `TasksSlice.RemoveUndoesCreate` | src/redux/tasksSlice.ts:88-93 | creating a task and removing its id is the same as only removing the id |
| `TasksSlice.TasksState.constructor` | src/redux/tasksSlice.ts:15-20 | the initial state |
| `TasksSlice.TasksState.ClearFilter` | src/redux/tasksSlice.ts:57-59 | the filter is emptied and nothing else changes |
| `TasksSlice.TasksState.Pending` | src/redux/tasksSlice.ts:63-66 | loading, no error, list and filter kept |
| `TasksSlice.TasksState.FetchTasksFulfilled` | src/redux/tasksSlice.ts:67-70 | not loading, the payload shown, error and filter kept |
| `TasksSlice.TasksState.Rejected` | src/redux/tasksSlice.ts:71-74 | not loading, the error message recorded, list and filter kept |
| `TasksSlice.TasksState.FetchFilteredFulfilled` | src/redux/tasksSlice.ts:79-83 | not loading, the payload shown, its filter remembered |
| `TasksSlice.TasksState.CreateTaskFulfilled` | src/redux/tasksSlice.ts:88-90 | the new task in front, nothing else changed |
| `TasksSlice.TasksState.RemoveTaskFulfilled` | src/redux/tasksSlice.ts:91-93 | every task with the id removed, nothing else changed |
| `TasksSlice.TasksState.ModifyTaskFulfilled` | src/redux/tasksSlice.ts:94-99 | the first task with the id patched, nothing else changed |
| `TasksSlice.TasksState.Dispatch` | src/redux/tasksSlice.ts:53-101 | the in-place cases compute `Reduce` |
| `TasksSlice.FetchTasks` | src/redux/tasksSlice.ts:22-25 | pending then fulfilled with the stored list: never rejected |
| `TasksSlice.FetchFilteredTasks` | src/redux/tasksSlice.ts:27-33 | the filtered list and its filter on success; on an unparsable date, the list and filter are kept and the error is "Invalid time value" |
| `TasksSlice.CreateTask` | src/redux/tasksSlice.ts:35-38 | the task shown in front under the database's new id; loading, error and filter unchanged; the store holds `Added` after a good write and is unchanged after a failed one; the list stays equal to the store when the write succeeds, and diverges from it when the write fails |
| `TasksSlice.RemoveTask` | src/redux/tasksSlice.ts:40-43 | the id removed from the list; loading, error and filter unchanged; the store loses the id after a good write and is unchanged after a failed one |
| `TasksSlice.ModifyTask` | src/redux/tasksSlice.ts:45-51 | the first match patched in the list; loading, error and filter unchanged; the store is patched the same way when the id is there and the write succeeds, and is unchanged otherwise |
| `Storage.Appended` | src/services/storage.ts:40-44 | the old list, then the new task under its id |
| `Storage.FreshIdIsUnique` | src/services/storage.ts:40-44 | with an unused id, the new task is the only one that carries it |
| `Storage.DeleteUndoesAppend` | src/services/storage.ts:37-62 | deleting a freshly added id restores the list |
| `Storage.TaskStore.Tasks` | src/services/storage.ts:27-35 | `[]` when nothing is stored |
| `Storage.TaskStore.SaveTasks` | src/services/storage.ts:18-25 | a failed write leaves the store as it was and is passed on as the error |
| `Storage.TaskStore.AddTask` | src/services/storage.ts:37-51 | the new task is appended and returned; a failed write changes nothing and is passed on |
| `Storage.TaskStore.DeleteTask` | src/services/storage.ts:53-62 | every task with the id removed; a failed write is passed on |
| `Storage.TaskStore.UpdateTask` | src/services/storage.ts:64-75 | every task with the id patched, written even when none matched; a failed write is passed on |

## Left out

- Character case is mapped for the letters A to Z only. The Unicode case mapping of `toLowerCase` and `toUpperCase` is not modelled.
- Date arithmetic is abstract. `addDays`, local time against UTC in `toISOString`, and the ISO string format are not modelled. The seconds and milliseconds that `setHours(h, m, 0, 0)` zeroes are not modelled either.
- `VoiceParser.DueMoment`: an hour of 24 or more, or minutes of 60 or more, are kept as written. `setHours` would roll them over into the next day or hour; the model does not.
- The date library (`parse`, `isValid`, `format`) is not part of this model. It appears only as the oracle parameters named above.
- The key-value store, JSON serialisation and logging are not modelled. A read failure reads as `[]`, which is what both services return for it.
- The storage service's id (`Date.now()` plus a random string) is a parameter. Its uniqueness is an assumption of `Storage.FreshIdIsUnique`, not a fact.
- The thunks are modelled as atomic. Interleavings of concurrent thunks, `createAsyncThunk`'s request bookkeeping, and the pending and rejected actions that the slice ignores are not modelled.
- `initDatabase` does nothing and is not modelled.
- Ids are unbounded integers, not JavaScript numbers. `NaN` and fractional ids are not modelled.
- `TaskRecords.Merge`: a patch field that is present with the value `undefined` is not modelled. Such a field would overwrite the old value with `undefined`.
- `DigitsValue`: a captured number is an exact natural. `parseInt` gives a double, which loses precision beyond 2^53; numbers that long are not modelled.
- `Prepared`, `StripWords`, `StripGroups`, `StripPhrases`: their own contracts give the shape of the result and that nothing changes when nothing matches. What a pass removes is stated by the operations they compose (`StripLeadingFiller`, `StripPoliteSuffix`, `RemoveWord`, `ReplaceAll`, `Trim`), not restated for the whole chain.
- `RelativeCleanText`: with an `at` time, the contract gives only the length bound. The second removal is `ReplaceFirst` and `Trim` again, whose contracts state it.
- `CollapseSpaces`: which whitespace character stands for a collapsed run is not stated. The contracts say that each run becomes one whitespace character (`CollapseKeepsTokens`), not that a run of two or more becomes a plain space.
- `ExtractReminder`: the "25 minutes" entry needs no clause of its own, because it can never win (`ReminderNeverTwentyFive`).
- The parser never fills `description`. `category` is the keyword category or nothing, not an arbitrary string.
