# Mood: a verified model of the data layer and view logic

Mood is an Android app for logging a mood a few times a day. Each entry has a mood
type, a note, optional context (sleep, social activity, hobby, food), a timestamp,
and an optional photo and location. This project models, in Dafny, the Kotlin core
that does not depend on Android:

- **The store.** `MoodJSONStore` keeps an in-memory list of entries and an id
  counter, and mirrors the list into one JSON file (`mood_store.dfy`). Its
  constructor runs the load-time backfill of missing ids. `create`, `update`,
  `delete`, `findById` and `findAll` are methods of a class, and the file is a
  second object whose contents and write count the store changes.
- **The day cards.** Entries are grouped by the date part of their timestamp; each
  day's entries are sorted newest first and averaged; the days are sorted newest
  first (`day_grouping.dfy`, `sorting.dfy`). The app repeats this in four places.
  Here it is one function, `GroupByDay`, proved against a reference definition
  (`IsDayGrouping`).
- **The home screen filters.** The note keyword filter, the inclusive date range
  that lets unparseable keys through, and the minimum daily average with -2.0 as
  "All" (`mood_list.dfy`). ISO 8601 calendar dates in extended format
  (`yyyy-MM-dd`) are modelled in `iso_dates.dfy`. The screen is a class whose
  handlers update the filter state and refresh the cards.
- **Insights.** Banding of a day average into five moods at 1.5 / 0.5 / -0.5 / -1.5,
  the playlist per band, per-mood counts, and the day navigation state of the
  activity and the presenter (`insights.dfy`).
- **The editor's save.** Decoding of the chip labels into enum constants, and the
  create-or-update decision (`mood_presenter.dfy`).
- **The adapters' display helpers.** Time of day, title-case labels of enum
  names, optional rows, and the footer average (`adapters.dfy`).

Supporting modules: `wrappers.dfy` (Option and Result), `text.dfy` (the Kotlin
string functions used, on ASCII), `mood_enums.dfy`, `mood_records.dfy`,
`sequences.dfy`.

Clocks are parameters. `LocalDate.now()` becomes `today` and `LocalDateTime.now()`
becomes `now`. A Kotlin exception becomes a failure value: `valueOf` on an unknown
name gives `None`, a failed chip gives `Failure(tag)`, the editor's save gives
`Crashed(tag)`, and `substring(11)` on a short text gives `None`.

### Ids

The model follows the code. `MoodStore.kt` (line 28) asks `create` for a unique
id; the model reads this as "no two records held by the store share an id".

- While a store is open, this holds. It is the invariant `IdsWellFormed`: ids are
  distinct and none is above the counter. `create` of a record without an id,
  `update` and `delete` keep it, and `MoodStorage.Reopen` carries it over to a
  store reopened on the file it wrote.
- The interface does not promise that an id is never handed out twice. The counter
  is not persisted: it is rebuilt from the largest stored id when the file is
  loaded. If the newest entry is deleted and the store is reopened, its id is
  given to the next new entry. `MoodStorage.IdReusedAfterReopen` shows this for
  the sequence create, delete, reopen, create. No two live records share an id
  at any point.
- The load-time backfill gives a record without an id the next counter value. Two
  records end up with the same id only in one case: the file holds a record
  without an id before a record whose id the counter has not yet reached
  (`MoodStorage.BackfillCanDuplicate`). A file written by this store has no
  record without an id, because `NoZeroIds` is part of `Valid`, so such a file
  must come from elsewhere.
  `MoodStorage.BackfillDistinct` proves that the ids come out distinct when the
  records without an id come last.

## Model

| member | source | states |
|---|---|---|
| AsciiText.ToLower | Mood/app/src/main/java/org/wit/mood/activities/MoodListActivity.kt:207 | an upper-case ASCII letter maps to its lower-case letter, every other character to itself |
| AsciiText.ToUpper | Mood/app/src/main/java/org/wit/mood/views/mood/MoodPresenter.kt:119-120 | a lower-case ASCII letter maps to its upper-case letter, every other character to itself |
| AsciiText.UpperOfLower | Mood/app/src/main/java/org/wit/mood/adapters/DailyMoodAdapter.kt:125-128 | upper-casing a lower-cased capital gives the capital back |
| AsciiText.Lowercase | Mood/app/src/main/java/org/wit/mood/activities/MoodListActivity.kt:205-207 | same length, every character lower-cased |
| AsciiText.Uppercase | Mood/app/src/main/java/org/wit/mood/views/mood/MoodPresenter.kt:119-129 | same length, every character upper-cased |
| AsciiText.ReplaceChar | Mood/app/src/main/java/org/wit/mood/views/mood/MoodPresenter.kt:128-129 | same length; exactly the occurrences of the old character become the new one |
| AsciiText.LeadingWhitespace | Mood/app/src/main/java/org/wit/mood/activities/MoodListActivity.kt:205 | the prefix it counts is all whitespace and the next character is not |
| AsciiText.TrailingCut | Mood/app/src/main/java/org/wit/mood/activities/MoodListActivity.kt:205 | the suffix it cuts is all whitespace and the character before it is not |
| AsciiText.Trim | Mood/app/src/main/java/org/wit/mood/activities/MoodListActivity.kt:205-206 | empty exactly for an all-whitespace text; otherwise the middle of the text, with no whitespace at either end and only whitespace cut |
| AsciiText.ContainsAt | Mood/app/src/main/java/org/wit/mood/activities/MoodListActivity.kt:207 | `contains` holds exactly when the query occurs at some position |
| AsciiText.Contains | Mood/app/src/main/java/org/wit/mood/activities/MoodListActivity.kt:207 | the empty query is contained in every text, and a contained query is no longer than the text |
| AsciiText.LexLeReflexive | Mood/app/src/main/java/org/wit/mood/activities/MoodListActivity.kt:217-220 | string order is reflexive |
| AsciiText.LexLeTotal | Mood/app/src/main/java/org/wit/mood/activities/MoodListActivity.kt:217-220 | any two strings are comparable |
| AsciiText.LexLeAntisymmetric | Mood/app/src/main/java/org/wit/mood/activities/MoodListActivity.kt:217-220 | strings ordered both ways are equal |
| AsciiText.LexLeTransitive | Mood/app/src/main/java/org/wit/mood/activities/MoodListActivity.kt:217-220 | string order is transitive |
| AsciiText.LexLt | Mood/app/src/main/java/org/wit/mood/activities/MoodListActivity.kt:217-220 | strictly before exactly when not at-or-after, the order `sortedByDescending` uses |
| AsciiText.Split | Mood/app/src/main/java/org/wit/mood/adapters/DailyMoodAdapter.kt:127 | at least one piece, and no piece holds the separator |
| AsciiText.JoinSplit | Mood/app/src/main/java/org/wit/mood/adapters/DailyMoodAdapter.kt:127-128 | joining the pieces of a split with the same separator gives back the text |
| AsciiText.CapitalizeAll | Mood/app/src/main/java/org/wit/mood/adapters/DailyMoodAdapter.kt:128 | one word out for each word in |
| AsciiText.CapitalizeWords | Mood/app/src/main/java/org/wit/mood/adapters/DailyMoodAdapter.kt:127-128 | for a separator upper-casing leaves alone, it is the reference definition `CapitalizeAfter` |
| AsciiText.CapitalizeAfter | Mood/app/src/main/java/org/wit/mood/adapters/DailyMoodAdapter.kt:127-128 | reference definition: a character is upper-cased exactly when it starts the text or follows a separator |
| AsciiText.CapitalizeWordsFrom | Mood/app/src/main/java/org/wit/mood/adapters/DailyMoodAdapter.kt:127-128 | split, capitalise the first letter of each piece and join is that reference definition |
| AsciiText.CapitalizeWordsAt | Mood/app/src/main/java/org/wit/mood/adapters/DailyMoodAdapter.kt:127-128 | capitalising words keeps the length and upper-cases exactly the first character of each word |
| Sequences.SubsequenceOfItself | Mood/app/src/main/java/org/wit/mood/activities/MoodListActivity.kt:206 | a list is a subsequence of itself (the blank query keeps the list) |
| Sequences.NoDuplicatesPermutation | Mood/app/src/main/java/org/wit/mood/activities/MoodListActivity.kt:215 | reordering a list without duplicates keeps it without duplicates, as sorting the day keys does |
| StableSort.InsertDesc | Mood/app/src/main/java/org/wit/mood/activities/MoodListActivity.kt:217 | insertion adds exactly one element |
| StableSort.SortDesc | Mood/app/src/main/java/org/wit/mood/activities/MoodListActivity.kt:217 | sorting keeps the length |
| StableSort.InsertDescSorted | Mood/app/src/main/java/org/wit/mood/activities/MoodListActivity.kt:217 | inserting into a descending list keeps it descending |
| StableSort.InsertDescPermutes | Mood/app/src/main/java/org/wit/mood/activities/MoodListActivity.kt:217 | insertion adds exactly the inserted element |
| StableSort.InsertDescStable | Mood/app/src/main/java/org/wit/mood/activities/MoodListActivity.kt:217 | the inserted element goes ahead of the later elements with its key and leaves their order alone |
| StableSort.SortDescSortedPermutation | Mood/app/src/main/java/org/wit/mood/activities/MoodListActivity.kt:217-220 | `sortedByDescending` yields keys in descending order and exactly the input elements |
| StableSort.SortDescStable | Mood/app/src/main/java/org/wit/mood/activities/MoodListActivity.kt:217 | elements with equal keys keep their relative order (stable sort) |
| MoodEnums.ScoresInRange | Mood/app/src/main/java/org/wit/mood/models/MoodEnums.kt:12-18 | every score lies in [-2, 2] |
| MoodEnums.ScoresStrictlyDecreasing | Mood/app/src/main/java/org/wit/mood/models/MoodEnums.kt:12-18 | the scores fall strictly in declaration order, so they are pairwise distinct; the five constants are all there is |
| MoodEnums.ScoreSign | Mood/app/src/main/java/org/wit/mood/models/MoodEnums.kt:10-18 | a positive score exactly for the pleasant moods, negative exactly for the unpleasant ones, zero exactly for NEUTRAL |
| MoodEnums.SleepQualityValueOf | Mood/app/src/main/java/org/wit/mood/models/MoodEnums.kt:24 | `valueOf` gives a constant only for its own name |
| MoodEnums.SocialActivityValueOf | Mood/app/src/main/java/org/wit/mood/models/MoodEnums.kt:29 | `valueOf` gives a constant only for its own name |
| MoodEnums.HobbyValueOf | Mood/app/src/main/java/org/wit/mood/models/MoodEnums.kt:34 | `valueOf` gives a constant only for its own name |
| MoodEnums.FoodTypeValueOf | Mood/app/src/main/java/org/wit/mood/models/MoodEnums.kt:39 | `valueOf` gives a constant only for its own name |
| MoodEnums.ValueOfName | Mood/app/src/main/java/org/wit/mood/models/MoodEnums.kt:24-39 | every constant of the four attribute enums is found by its name |
| MoodEnums.SleepQualityNameShape | Mood/app/src/main/java/org/wit/mood/models/MoodEnums.kt:24 | the names are non-empty upper-case letters without underscores |
| MoodEnums.SocialActivityNameShape | Mood/app/src/main/java/org/wit/mood/models/MoodEnums.kt:29 | the names are non-empty upper-case letters without underscores |
| MoodEnums.HobbyNameShape | Mood/app/src/main/java/org/wit/mood/models/MoodEnums.kt:34 | the names are non-empty upper-case letters without underscores |
| MoodEnums.FoodTypeNameShape | Mood/app/src/main/java/org/wit/mood/models/MoodEnums.kt:39 | the names are non-empty upper-case letters and underscores (FAST_FOOD, NO_SUGAR) |
| MoodStorage.FirstWithId | Mood/app/src/main/java/org/wit/mood/models/MoodJSONStore.kt:63 | none exactly when no record has the id; otherwise a record of the list with that id and no earlier one |
| MoodStorage.IndexOfId | Mood/app/src/main/java/org/wit/mood/models/MoodJSONStore.kt:80 | -1 exactly when no record has the id; otherwise the first position holding it |
| MoodStorage.ReplaceFirst | Mood/app/src/main/java/org/wit/mood/models/MoodJSONStore.kt:80-82 | same length; the first position holding the id now holds the new record and every other position is unchanged |
| MoodStorage.RemoveId | Mood/app/src/main/java/org/wit/mood/models/MoodJSONStore.kt:91 | keeps exactly the records whose id differs |
| MoodStorage.RemoveIdCount | Mood/app/src/main/java/org/wit/mood/models/MoodJSONStore.kt:91 | every copy of a record with the id is dropped and every copy of any other record is kept |
| MoodStorage.MaxId | Mood/app/src/main/java/org/wit/mood/models/MoodJSONStore.kt:48 | at least every id and equal to one of them, or 0 |
| MoodStorage.Assigned | Mood/app/src/main/java/org/wit/mood/models/MoodJSONStore.kt:70 | a record without an id gets `lastId + 1`, one with an id keeps it, and nothing but the id changes |
| MoodStorage.Backfill | Mood/app/src/main/java/org/wit/mood/models/MoodJSONStore.kt:45-49 | the pass keeps the list length |
| MoodStorage.BackfillKeepsRecords | Mood/app/src/main/java/org/wit/mood/models/MoodJSONStore.kt:46-48 | a record with an id is kept as it was; a record without one changes only its id |
| MoodStorage.BackfillAssignsIds | Mood/app/src/main/java/org/wit/mood/models/MoodJSONStore.kt:45-49 | after the pass no record has id 0 and the counter is at least every id |
| MoodStorage.BackfillChangedIffMissing | Mood/app/src/main/java/org/wit/mood/models/MoodJSONStore.kt:45-50 | the file is rewritten exactly when some loaded record had id 0 |
| MoodStorage.BackfillIdentity | Mood/app/src/main/java/org/wit/mood/models/MoodJSONStore.kt:45-50 | a list with all ids set loads unchanged with the counter at its largest id and no rewrite |
| MoodStorage.BackfillDistinct | Mood/app/src/main/java/org/wit/mood/models/MoodJSONStore.kt:45-49 | distinct ids with the unassigned records last give distinct ids, none above the counter |
| MoodStorage.BackfillCanDuplicate | Mood/app/src/main/java/org/wit/mood/models/MoodJSONStore.kt:46-49 | the loaded list `[id 0, id 1]` becomes `[id 1, id 1]` |
| MoodStorage.CreatePreservesIds | Mood/app/src/main/java/org/wit/mood/models/MoodJSONStore.kt:55-72 | creating a record with id 0 gives it `lastId + 1` and keeps ids distinct and bounded by the new counter |
| MoodStorage.ReplaceFirstKeepsIds | Mood/app/src/main/java/org/wit/mood/models/MoodJSONStore.kt:80-82 | update keeps the length and every id, changes no record with another id, and changes nothing without a match |
| MoodStorage.ReplaceFirstThenFind | Mood/app/src/main/java/org/wit/mood/models/MoodJSONStore.kt:63-85 | after an update, looking the id up gives the new record exactly when some record matched |
| MoodStorage.ReplaceFirstContents | Mood/app/src/main/java/org/wit/mood/models/MoodStore.kt:32-36 | with distinct ids the list afterwards holds the new record and every old record with another id, and ids stay distinct |
| MoodStorage.RemoveIdSubsequence | Mood/app/src/main/java/org/wit/mood/models/MoodJSONStore.kt:90-91 | delete keeps the other records in order and leaves none with the id |
| MoodStorage.RemoveIdIdempotent | Mood/app/src/main/java/org/wit/mood/models/MoodJSONStore.kt:90-91 | deleting twice is deleting once; deleting an absent id changes nothing |
| MoodStorage.RemoveIdPreservesIds | Mood/app/src/main/java/org/wit/mood/models/MoodJSONStore.kt:90-91 | delete keeps ids distinct and bounded by the counter |
| MoodStorage.RemoveIdKeepsNoZeroIds | Mood/app/src/main/java/org/wit/mood/models/MoodJSONStore.kt:90-91 | delete leaves no record without an id |
| MoodStorage.MoodFile.constructor | Mood/app/src/main/java/org/wit/mood/models/MoodJSONStore.kt:41 | a file with the given contents, not yet written |
| MoodStorage.MoodJSONStore.constructor | Mood/app/src/main/java/org/wit/mood/models/MoodJSONStore.kt:40-52 | no file: empty list and counter 0, file untouched; a file: the list and counter are the backfill of what was read, rewritten exactly when something changed |
| MoodStorage.MoodJSONStore.NextId | Mood/app/src/main/java/org/wit/mood/models/MoodJSONStore.kt:55 | pre-increments the counter and returns the new value |
| MoodStorage.MoodJSONStore.Serialize | Mood/app/src/main/java/org/wit/mood/models/MoodJSONStore.kt:101-107 | the file now holds the list in memory, one more write |
| MoodStorage.MoodJSONStore.FindAll | Mood/app/src/main/java/org/wit/mood/models/MoodJSONStore.kt:60 | the list in memory |
| MoodStorage.MoodJSONStore.FindById | Mood/app/src/main/java/org/wit/mood/models/MoodJSONStore.kt:63 | the first record with the id, or none |
| MoodStorage.MoodJSONStore.Create | Mood/app/src/main/java/org/wit/mood/models/MoodJSONStore.kt:69-72 | the record, with the next id when it had none, is appended; the counter moves only then; the file is rewritten; unique bounded ids are preserved for an id-0 record |
| MoodStorage.MoodJSONStore.Update | Mood/app/src/main/java/org/wit/mood/models/MoodJSONStore.kt:79-85 | the first record with the id is replaced; file rewritten only on a match, untouched otherwise; ids stay well formed |
| MoodStorage.MoodJSONStore.Delete | Mood/app/src/main/java/org/wit/mood/models/MoodJSONStore.kt:90-93 | every record with the id is removed; the file is always rewritten; ids stay well formed |
| MoodStorage.Reopen | Mood/app/src/main/java/org/wit/mood/models/MoodJSONStore.kt:40-52 | a second store over the written file holds the same records, does not rewrite it, restarts the counter at the largest id, and keeps ids well formed |
| MoodStorage.IdReusedAfterReopen | Mood/app/src/main/java/org/wit/mood/models/MoodJSONStore.kt:33-55 | create, delete, reopen, create: both records get id 1 |
| DayGrouping.DayKey | Mood/app/src/main/java/org/wit/mood/activities/MoodListActivity.kt:215 | `take(10)`: a prefix of the timestamp, ten characters long or the whole timestamp when shorter |
| DayGrouping.OnDayCount | Mood/app/src/main/java/org/wit/mood/activities/MoodListActivity.kt:215 | `groupBy`'s bucket for a day holds every copy of each entry of that day and nothing else |
| DayGrouping.MeanTimesCount | Mood/app/src/main/java/org/wit/mood/activities/MoodListActivity.kt:218 | the average times the count is the score sum; no entries average 0.0 |
| DayGrouping.MeanConcat | Mood/app/src/main/java/org/wit/mood/activities/MoodListActivity.kt:218 | the average of two lists together is their averages weighted by their counts |
| DayGrouping.SummarizeFields | Mood/app/src/main/java/org/wit/mood/activities/MoodListActivity.kt:216-219 | a card for any key carries the key, exactly that day's entries sorted newest first, and their average; a key with no entries gives an empty card with average 0.0 |
| DayGrouping.GroupByDay | Mood/app/src/main/java/org/wit/mood/activities/MoodListActivity.kt:214-221 | one card per distinct day of the list (its full correctness is `GroupByDayCorrect`) |
| DayGrouping.DayKeys | Mood/app/src/main/java/org/wit/mood/activities/MoodListActivity.kt:215 | `groupBy`'s keys: no duplicates, and exactly the days that some entry has |
| DayGrouping.SummarizeAll | Mood/app/src/main/java/org/wit/mood/activities/MoodListActivity.kt:216-219 | one card per key, in key order |
| DayGrouping.Dates | Mood/app/src/main/java/org/wit/mood/activities/MoodListActivity.kt:220 | the dates of the cards, in order |
| DayGrouping.SumScoresConcat | Mood/app/src/main/java/org/wit/mood/activities/MoodListActivity.kt:218 | the score sum of two lists is the sum of their sums |
| DayGrouping.SumScoresPermutation | Mood/app/src/main/java/org/wit/mood/activities/MoodListActivity.kt:217-218 | the score sum does not depend on order |
| DayGrouping.MeanPermutation | Mood/app/src/main/java/org/wit/mood/adapters/DailyMoodAdapter.kt:56-58 | the average does not depend on the order of the entries |
| DayGrouping.SumScoresBounds | Mood/app/src/main/java/org/wit/mood/activities/MoodListActivity.kt:218 | the score sum lies between -2 and 2 times the count |
| DayGrouping.MeanInRange | Mood/app/src/main/java/org/wit/mood/models/DailyMoodSummary.kt:18-19 | every day average lies in [-2, 2] |
| DayGrouping.InsertCommutes | Mood/app/src/main/java/org/wit/mood/activities/MoodListActivity.kt:216-220 | inserting a card by date is summarising after inserting its key |
| DayGrouping.SortSummariesCommutes | Mood/app/src/main/java/org/wit/mood/activities/MoodListActivity.kt:220 | sorting the cards by date is summarising the keys sorted descending |
| DayGrouping.SummarizeIsDayOf | Mood/app/src/main/java/org/wit/mood/activities/MoodListActivity.kt:216-219 | the card built for a day that has entries holds exactly that day's entries, newest first and stable, with their mean |
| DayGrouping.SortedDayKeys | Mood/app/src/main/java/org/wit/mood/activities/MoodListActivity.kt:215-220 | the sorted day keys are strictly descending and are exactly the days of the list |
| DayGrouping.GroupByDayCorrect | Mood/app/src/main/java/org/wit/mood/activities/MoodListActivity.kt:214-221 | the grouping of all four screens is a day grouping: one card per day with entries, dates strictly descending, each card exactly its day's entries newest first with their mean |
| DayGrouping.OnAnyDayCons | Mood/app/src/main/java/org/wit/mood/activities/MoodListActivity.kt:215 | the entries of a new day add to those of the other days |
| DayGrouping.OnAnyDayAll | Mood/app/src/main/java/org/wit/mood/activities/MoodListActivity.kt:215 | collecting every day the list has gives the whole list |
| DayGrouping.FlattenOnAnyDay | Mood/app/src/main/java/org/wit/mood/activities/MoodListActivity.kt:215-216 | the cards together hold the entries of their days |
| DayGrouping.InFlatten | Mood/app/src/main/java/org/wit/mood/activities/MoodListActivity.kt:216 | an entry is in the cards together exactly when it is in one card |
| DayGrouping.WithKeyMember | Mood/app/src/main/java/org/wit/mood/activities/MoodListActivity.kt:217 | the elements with a key are those of the list with that key |
| DayGrouping.GroupingEntriesOnTheirDay | Mood/app/src/main/java/org/wit/mood/models/DailyMoodSummary.kt:14-17 | in a day grouping each card holds only entries of the list recorded on its date |
| DayGrouping.GroupingPartitions | Mood/app/src/main/java/org/wit/mood/activities/MoodListActivity.kt:215-216 | the cards hold exactly the list's entries, each entry in exactly one card |
| IsoDates.FormatIsoDate | Mood/app/src/main/java/org/wit/mood/activities/MoodListActivity.kt:47 | ISO dates print as ten characters |
| IsoDates.ParseIsoDate | Mood/app/src/main/java/org/wit/mood/activities/MoodListActivity.kt:234 | a text parses only if it has the `yyyy-MM-dd` shape, to a year from 0 to 9999 (the round trips are `ParseFormat` and `FormatParse`) |
| IsoDates.ParseFormat | Mood/app/src/main/java/org/wit/mood/activities/MoodListActivity.kt:234 | a date of years 0 to 9999 parses back from its text |
| IsoDates.FormatParse | Mood/app/src/main/java/org/wit/mood/activities/MoodListActivity.kt:234 | a text that parses is the text of the date it parses to |
| IsoDates.Pad2Order | Mood/app/src/main/java/org/wit/mood/activities/MoodListActivity.kt:220 | two-digit texts compare as their numbers |
| IsoDates.TextOrderIsDateOrder | Mood/app/src/main/java/org/wit/mood/activities/MoodListActivity.kt:234-240 | comparing date texts as strings is comparing the dates |
| IsoDates.PrevDay | Mood/app/src/main/java/org/wit/mood/activities/MoodListActivity.kt:104 | `minusDays(1)` is before the date |
| IsoDates.PrevDayImmediate | Mood/app/src/main/java/org/wit/mood/activities/MoodListActivity.kt:104 | no date lies between a date and the day before it |
| IsoDates.MinusDaysNotAfter | Mood/app/src/main/java/org/wit/mood/activities/MoodListActivity.kt:104 | `minusDays(n)` is not after the date |
| IsoDates.MinusDays | Mood/app/src/main/java/org/wit/mood/activities/MoodListActivity.kt:104 | `minusDays(n)` for n > 0 is strictly before the date |
| IsoDates.WindowIsLastDays | Mood/app/src/main/java/org/wit/mood/activities/MoodListActivity.kt:101-107 | the inclusive window from `minusDays(n)` to the date holds exactly the dates `minusDays(k)`, k from 0 to n |
| MoodList.NoteMatches | Mood/app/src/main/java/org/wit/mood/activities/MoodListActivity.kt:207 | keeps exactly the entries whose lower-cased note contains the query, each with as many copies as the source has |
| MoodList.KeywordFilter | Mood/app/src/main/java/org/wit/mood/activities/MoodListActivity.kt:204-208 | a query that is empty after trimming and lower-casing keeps the list unchanged |
| MoodList.NoteMatchesSubsequence | Mood/app/src/main/java/org/wit/mood/activities/MoodListActivity.kt:207 | the matches keep their order |
| MoodList.KeywordFilterSpec | Mood/app/src/main/java/org/wit/mood/activities/MoodListActivity.kt:204-207 | a query blank after trimming keeps the list; otherwise exactly the entries whose lower-cased note contains the trimmed lower-cased query, every copy of each, in order |
| MoodList.KeywordFilterNoteOnly | Mood/app/src/main/java/org/wit/mood/activities/MoodListActivity.kt:201-207 | only the note is searched: entries with the same note are kept or dropped together |
| MoodList.FilterSummaries | Mood/app/src/main/java/org/wit/mood/activities/MoodListActivity.kt:227-243 | keeps exactly the cards that pass the date test (open bounds pass, unparseable keys pass) and the average test (-2.0 or less passes all) |
| MoodList.DatePasses | Mood/app/src/main/java/org/wit/mood/activities/MoodListActivity.kt:234-240 | open bounds pass every key; with `from` equal to `to` (the "Today" chip) a parsed key passes exactly when it is that date |
| MoodList.AvgPasses | Mood/app/src/main/java/org/wit/mood/activities/MoodListActivity.kt:241 | for any day average of at least -2.0, the test is the plain threshold `avg >= minAvg`, so -2.0 as "All" hides nothing |
| MoodList.DatePassesOnText | Mood/app/src/main/java/org/wit/mood/activities/MoodListActivity.kt:234-240 | for a key that parses, the date test is the inclusive range test on the key text |
| MoodList.FilterSummariesOpen | Mood/app/src/main/java/org/wit/mood/activities/MoodListActivity.kt:235-241 | open bounds and the "All" average filter nothing |
| MoodList.FilterSummariesKeepsOrder | Mood/app/src/main/java/org/wit/mood/activities/MoodListActivity.kt:233 | the kept cards are a subsequence, so dates still descend strictly |
| MoodList.PipelineSpec | Mood/app/src/main/java/org/wit/mood/activities/MoodListActivity.kt:182-185 | the list shows correct day cards of the matching entries, and exactly those that pass both filters, in order |
| MoodList.Pipeline | Mood/app/src/main/java/org/wit/mood/activities/MoodListActivity.kt:182-185 | a blank query, open dates and the "All" average show exactly the plain day grouping |
| MoodList.PipelineDefaults | Mood/app/src/main/java/org/wit/mood/activities/MoodListActivity.kt:130-134 | with the reset values the list shows the plain day grouping |
| MoodList.MoodListScreen.constructor | Mood/app/src/main/java/org/wit/mood/activities/MoodListActivity.kt:41-139 | starts from all stored entries, the default filters, and the cards of the pipeline over them |
| MoodList.MoodListScreen.RefreshList | Mood/app/src/main/java/org/wit/mood/activities/MoodListActivity.kt:182-198 | the cards shown are the pipeline over the current filter state |
| MoodList.MoodListScreen.OnQueryChanged | Mood/app/src/main/java/org/wit/mood/activities/MoodListActivity.kt:79-82 | the query becomes the text, or "" for null, and the list is refreshed |
| MoodList.MoodListScreen.OnAllDatesChecked | Mood/app/src/main/java/org/wit/mood/activities/MoodListActivity.kt:86-92 | both date bounds open, list refreshed |
| MoodList.MoodListScreen.OnTodayChecked | Mood/app/src/main/java/org/wit/mood/activities/MoodListActivity.kt:93-100 | both bounds are today, list refreshed |
| MoodList.MoodListScreen.OnLast7Checked | Mood/app/src/main/java/org/wit/mood/activities/MoodListActivity.kt:101-108 | bounds are six days before today and today, list refreshed |
| MoodList.MoodListScreen.OnSliderChanged | Mood/app/src/main/java/org/wit/mood/activities/MoodListActivity.kt:111-117 | the minimum average is the slider value, list refreshed |
| MoodList.MoodListScreen.OnReset | Mood/app/src/main/java/org/wit/mood/activities/MoodListActivity.kt:125-136 | query "", open dates, average -2.0, and every day shown |
| MoodList.MoodListScreen.OnDataChanged | Mood/app/src/main/java/org/wit/mood/activities/MoodListActivity.kt:191-195 | entries reloaded from the store and the list refreshed |
| MoodListPresenter.LoadMoods | Mood/app/src/main/java/org/wit/mood/views/moodlist/MoodListPresenter.kt:51-64 | the cards are a correct day grouping of every stored entry, the same as the list screen with its filters reset |
| Insights.Band | Mood/app/src/main/java/org/wit/mood/activities/InsightsActivity.kt:114-120 | the band is the mood whose score is within half a point below or above the average (HAPPY and ANGRY unbounded outward) |
| Insights.AvgLabelFor | Mood/app/src/main/java/org/wit/mood/views/insights/InsightsPresenter.kt:117-123 | the label is the label of the band of the average |
| Insights.PlaylistUrlFor | Mood/app/src/main/java/org/wit/mood/views/insights/InsightsPresenter.kt:149-155 | a playlist for every average |
| Insights.BandMonotone | Mood/app/src/main/java/org/wit/mood/views/insights/InsightsPresenter.kt:117-123 | a higher average never gets a lower band |
| Insights.BandOfScore | Mood/app/src/main/java/org/wit/mood/views/insights/InsightsPresenter.kt:117-123 | a day whose average is a mood's score gets that mood |
| Insights.BandIsNearest | Mood/app/src/main/java/org/wit/mood/views/insights/InsightsPresenter.kt:117-123 | within [-2, 2] the band score is within 0.5 of the average |
| Insights.LabelsDistinguishBands | Mood/app/src/main/java/org/wit/mood/views/insights/InsightsPresenter.kt:117-123 | two averages get the same label exactly when they get the same band |
| Insights.PlaylistsDistinct | Mood/app/src/main/java/org/wit/mood/views/insights/InsightsPresenter.kt:150-154 | the five playlist links differ (at the first character of their ids) |
| Insights.PlaylistBandsAreLabelBands | Mood/app/src/main/java/org/wit/mood/views/insights/InsightsPresenter.kt:149-155 | two averages get the same playlist exactly when they get the same label: the same five bands |
| Insights.CountOf | Mood/app/src/main/java/org/wit/mood/activities/InsightsActivity.kt:124-126 | the count is at most the entries, and positive exactly when some entry has that mood |
| Insights.Counts | Mood/app/src/main/java/org/wit/mood/views/insights/InsightsPresenter.kt:98-100 | every mood type has a count, the number of its entries |
| Insights.CountsSumToSize | Mood/app/src/main/java/org/wit/mood/activities/InsightsActivity.kt:124-126 | the counts over all mood types add up to the number of entries of the day |
| Insights.Older | Mood/app/src/main/java/org/wit/mood/activities/InsightsActivity.kt:70-73 | stays in range, and moves one step toward older days exactly when it is not at the oldest day |
| Insights.Newer | Mood/app/src/main/java/org/wit/mood/activities/InsightsActivity.kt:74-77 | stays in range, and moves one step toward newer days exactly when it is not at the newest day |
| Insights.NewerUndoesOlder | Mood/app/src/main/java/org/wit/mood/views/insights/InsightsPresenter.kt:43-56 | where "previous" moves, "next" brings the index back |
| Insights.OlderUndoesNewer | Mood/app/src/main/java/org/wit/mood/views/insights/InsightsPresenter.kt:43-56 | where "next" moves, "previous" brings the index back |
| Insights.OlderTimesReaches | Mood/app/src/main/java/org/wit/mood/activities/InsightsActivity.kt:70-73 | k presses of "previous" from index i reach min(i + k, last index) |
| Insights.RenderFor | Mood/app/src/main/java/org/wit/mood/activities/InsightsActivity.kt:99-133 | empty state exactly for no days; otherwise the card's date, the band label of its average, the per-mood counts of that day (every mood present, each its number of entries, adding up to the entries); chevrons enabled exactly where they move |
| Insights.AverageText | Mood/app/src/main/java/org/wit/mood/activities/InsightsActivity.kt:102-121 | "No data yet" for the empty state, otherwise "Average: " and the label |
| Insights.PlaylistFor | Mood/app/src/main/java/org/wit/mood/views/insights/InsightsPresenter.kt:78-94 | a playlist exactly when there are days |
| Insights.InsightsActivity.constructor | Mood/app/src/main/java/org/wit/mood/activities/InsightsActivity.kt:79-80 | starts at the newest day of the grouping of all entries, rendered |
| Insights.InsightsActivity.ReloadDays | Mood/app/src/main/java/org/wit/mood/activities/InsightsActivity.kt:86-90 | days regrouped from the store, index 0, rendered |
| Insights.InsightsActivity.RenderDay | Mood/app/src/main/java/org/wit/mood/activities/InsightsActivity.kt:99-133 | the screen shows the render of the current day |
| Insights.InsightsActivity.OnPrevDayClicked | Mood/app/src/main/java/org/wit/mood/activities/InsightsActivity.kt:70-73 | index moves one toward older days only when there is one; screen follows |
| Insights.InsightsActivity.OnNextDayClicked | Mood/app/src/main/java/org/wit/mood/activities/InsightsActivity.kt:74-77 | index moves one toward newer days only when there is one; screen follows |
| Insights.InsightsPresenter.constructor | Mood/app/src/main/java/org/wit/mood/views/insights/InsightsPresenter.kt:24-31 | no days, index 0, no playlist, the empty state shown, the playlist button hidden, and the presenter valid |
| Insights.InsightsPresenter.Load | Mood/app/src/main/java/org/wit/mood/views/insights/InsightsPresenter.kt:36-40 | days regrouped from the store, index 0, rendered |
| Insights.InsightsPresenter.OnPrevDay | Mood/app/src/main/java/org/wit/mood/views/insights/InsightsPresenter.kt:43-48 | index moves one toward older days only when there is one; screen and playlist follow |
| Insights.InsightsPresenter.OnNextDay | Mood/app/src/main/java/org/wit/mood/views/insights/InsightsPresenter.kt:51-56 | index moves one toward newer days only when there is one; screen and playlist follow |
| Insights.InsightsPresenter.OnOpenPlaylist | Mood/app/src/main/java/org/wit/mood/views/insights/InsightsPresenter.kt:59-62 | opens the current playlist, which exists exactly when there are days; otherwise nothing is opened |
| Insights.InsightsPresenter.Render | Mood/app/src/main/java/org/wit/mood/views/insights/InsightsPresenter.kt:77-109 | no days: no playlist, button hidden, chevrons off; otherwise the day's playlist with its button shown |
| Adapters.DayCardTime | Mood/app/src/main/java/org/wit/mood/adapters/DailyMoodAdapter.kt:113-114 | five characters on a full timestamp, never longer than the text |
| Adapters.EntryCardTime | Mood/app/src/main/java/org/wit/mood/adapters/MoodAdapter.kt:121-122 | fails exactly below eleven characters; otherwise at most five characters from position 11 |
| Adapters.TimeOfTimestamp | Mood/app/src/main/java/org/wit/mood/adapters/DailyMoodAdapter.kt:113-114 | on "yyyy-MM-dd HH:mm:ss" both give "HH:mm" |
| Adapters.OnlyTimesAgree | Mood/app/src/main/java/org/wit/mood/adapters/DailyMoodAdapter.kt:113-114 | the two versions agree from sixteen characters on and differ from eleven to fifteen |
| Adapters.PrettyEnumLabel | Mood/app/src/main/java/org/wit/mood/adapters/DailyMoodAdapter.kt:125-128 | the label has the length of the name |
| Adapters.PrettyEnumLabelAt | Mood/app/src/main/java/org/wit/mood/adapters/DailyMoodAdapter.kt:125-128 | on a constant name: a space for each underscore, the first letter of each word kept, the other letters lower-cased |
| Adapters.UnderscoreLabels | Mood/app/src/main/java/org/wit/mood/adapters/MoodAdapter.kt:141-147 | "FAST_FOOD" gives "Fast Food" and "NO_SUGAR" gives "No Sugar" |
| Adapters.SetRow | Mood/app/src/main/java/org/wit/mood/adapters/DailyMoodAdapter.kt:116-123 | hidden exactly for a missing value; otherwise the emoji, then a space, then the pretty label |
| Adapters.AttributeRows | Mood/app/src/main/java/org/wit/mood/adapters/DailyMoodAdapter.kt:82-85 | each of the four rows is shown exactly when the entry has that attribute, labelled with its pretty name |
| Adapters.PhotoShown | Mood/app/src/main/java/org/wit/mood/adapters/MoodAdapter.kt:75-83 | the photo is shown exactly for a non-empty uri |
| Adapters.FooterAverage | Mood/app/src/main/java/org/wit/mood/adapters/DailyMoodAdapter.kt:56-58 | the recomputed average lies in [-2, 2] |
| Adapters.FooterText | Mood/app/src/main/java/org/wit/mood/adapters/DailyMoodAdapter.kt:60-67 | "Average Mood: " and the band label of the recomputed average |
| Adapters.FooterAgreesWithCard | Mood/app/src/main/java/org/wit/mood/adapters/DailyMoodAdapter.kt:56-67 | on a card of a day grouping the footer average is the card's average, so the footer shows the Insights label |
| Adapters.DailyMoodAdapter.constructor | Mood/app/src/main/java/org/wit/mood/adapters/DailyMoodAdapter.kt:35-40 | the adapter holds the given cards |
| Adapters.DailyMoodAdapter.GetItemCount | Mood/app/src/main/java/org/wit/mood/adapters/DailyMoodAdapter.kt:35 | one item per card |
| Adapters.DailyMoodAdapter.SubmitList | Mood/app/src/main/java/org/wit/mood/adapters/DailyMoodAdapter.kt:37-40 | the new cards replace the old ones wholesale |
| Adapters.MoodAdapter.constructor | Mood/app/src/main/java/org/wit/mood/adapters/MoodAdapter.kt:50 | the adapter holds the given entries |
| Adapters.MoodAdapter.GetItemCount | Mood/app/src/main/java/org/wit/mood/adapters/MoodAdapter.kt:50 | one item per entry |
| MoodEditor.SleepFromChip | Mood/app/src/main/java/org/wit/mood/views/mood/MoodPresenter.kt:119-120 | no chip gives no value; otherwise the constant named by the upper-cased text, and a failure exactly when there is none |
| MoodEditor.SocialFromChip | Mood/app/src/main/java/org/wit/mood/views/mood/MoodPresenter.kt:122-123 | no chip gives no value; otherwise the constant named by the upper-cased text, and a failure exactly when there is none |
| MoodEditor.HobbyFromChip | Mood/app/src/main/java/org/wit/mood/views/mood/MoodPresenter.kt:125-126 | no chip gives no value; otherwise the constant named by the upper-cased text, and a failure exactly when there is none |
| MoodEditor.FoodFromChip | Mood/app/src/main/java/org/wit/mood/views/mood/MoodPresenter.kt:128-129 | no chip gives no value; otherwise the constant named by the text with spaces as underscores, upper-cased, and a failure exactly when there is none |
| MoodEditor.UppercaseUndoesPretty | Mood/app/src/main/java/org/wit/mood/views/mood/MoodPresenter.kt:128-129 | upper-casing a pretty label with its spaces back as underscores gives the constant name |
| MoodEditor.UppercaseUndoesPrettyPlain | Mood/app/src/main/java/org/wit/mood/views/mood/MoodPresenter.kt:119-126 | for a name without underscores upper-casing the pretty label alone gives it back |
| MoodEditor.SleepChipDecodes | Mood/app/src/main/java/org/wit/mood/views/mood/MoodPresenter.kt:119-120 | the chip labelled as the cards print a constant decodes to it |
| MoodEditor.SocialChipDecodes | Mood/app/src/main/java/org/wit/mood/views/mood/MoodPresenter.kt:122-123 | the chip labelled as the cards print a constant decodes to it |
| MoodEditor.HobbyChipDecodes | Mood/app/src/main/java/org/wit/mood/views/mood/MoodPresenter.kt:125-126 | the chip labelled as the cards print a constant decodes to it |
| MoodEditor.FoodChipDecodes | Mood/app/src/main/java/org/wit/mood/views/mood/MoodPresenter.kt:128-129 | the chip labelled as the cards print a constant (including "Fast Food") decodes to it |
| MoodEditor.DecodeChips | Mood/app/src/main/java/org/wit/mood/views/mood/MoodPresenter.kt:65-68 | succeeds exactly when all four chips decode, with their values; otherwise fails with the tag of the first chip, in sleep, social, hobby, food order, that does not decode |
| MoodEditor.PlanSave | Mood/app/src/main/java/org/wit/mood/views/mood/MoodPresenter.kt:58-107 | stops exactly without a mood; fails exactly on a chip that does not decode; creates exactly when not editing, with id 0 and the current time; updates otherwise keeping id and timestamp; the record carries the form |
| MoodEditor.ResaveIsIdentity | Mood/app/src/main/java/org/wit/mood/views/mood/MoodPresenter.kt:93-106 | saving an edited entry without changes writes back the same record |
| MoodEditor.UnchangedChipsDecode | Mood/app/src/main/java/org/wit/mood/views/mood/MoodPresenter.kt:65-68 | the chips of an unchanged entry decode to its own attributes |
| MoodEditor.OnSaveClicked | Mood/app/src/main/java/org/wit/mood/views/mood/MoodPresenter.kt:58-110 | no mood: the message, store untouched; bad chip: aborted, store untouched; create: the record appended with id `lastId + 1`, the counter advanced and one more file write; update: the first record with the id replaced, the counter kept, the file rewritten once on a match and untouched otherwise; the matching message and an OK close; unique ids preserved |

## Left out

- The `MoodStore` interface is not a separate Dafny type. Its contract is stated on the methods of `MoodJSONStore`, its only implementation.
- JSON text and Gson: the file is modelled as the list it holds. Read and write failures, a missing files directory and a file that holds JSON `null` are not modelled.
- `findAll` returns the store's live mutable list, and `create` assigns the id into the caller's object. The model returns and stores values, so this aliasing is not captured.
- Android views are not modelled: RecyclerView binding, inflation, dialogs, menus, bottom navigation, the filter panel animation and padding, the ring chart (DailyMoodRingView.kt) and the legend views.
- The slider's "Min daily average" label text is not modelled, and neither is its `%.1f` formatting.
- The reset handler first sets widgets that each trigger their own refresh. The model performs only the final refresh, which shows the same cards.
- `formatDateForHeader` is not modelled, because it depends on the locale. The header of a day card is therefore not modelled.
- The empty Insights state shows the `app_name` string resource as its date. The resource text is not part of the sources, so the model records only that there is no card.
- The editor's `init` prefill, the photo and location handlers, and cancel are not modelled. They only forward values to the view.
- The chip texts are supplied as parameters of the form. The layout that defines them is not part of the sources. `MoodEditor.UnchangedForm` assumes chips labelled as the cards print the constants.
- `MoodEditor.OnSaveClicked`: an exception from `valueOf` becomes `Crashed(tag)`, which holds the text that failed. Kotlin's exception message is not modelled.
- Maps and geolocation, the Spotify and browser intents, the night-mode preference, navigation between screens and the `MainApp` singleton are not modelled. A location is carried through unchanged.
- Doubles are modelled as exact reals. The averages are means of small integers; IEEE rounding is not modelled.
- Ids are modelled as unbounded integers, so the 64-bit overflow of the counter is not modelled.
- Case mapping and whitespace cover ASCII only. Kotlin's Unicode case tables are not modelled.
- A null note is treated as the empty note. The record type has a non-null note; this matches the keyword filter's `orEmpty()`.
- `IsoDates` parses only `yyyy-MM-dd` with a four-digit year; `LocalDate.parse` also accepts signed years with more digits. Only the text shape the keys have is modelled, because keys come from `take(10)`.
- `Insights.PlaylistUrlFor` identifies each playlist by its link. Opening it in Spotify or a browser is not modelled.
- `Adapters.EntryCardTime` returns `None` where `substring(11)` throws on a timestamp shorter than eleven characters.
- Stale files are not modelled. activities/DailyMoodAdapter.kt, the second `MoodType` in MoodModel.kt, MoodActivity.kt, and the view and contract files do not compile against the core or are not used by it. The record shape follows MoodPresenter.kt and MoodJSONStore.kt.
