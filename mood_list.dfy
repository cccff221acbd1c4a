/** The home screen's list: the note keyword filter, the grouping into day cards, the
    inclusive date-range and minimum-average filters, and the screen state that feeds them. */
module MoodList {
  import opened Wrappers
  import opened AsciiText
  import opened Sequences
  import opened MoodRecords
  import opened MoodStorage
  import opened DayGrouping
  import opened IsoDates

  // ---------------------------------------------------------------------------
  // The filters
  // ---------------------------------------------------------------------------

  /** `source.filter { it.note.lowercase().contains(q) }`. */
  function NoteMatches(source: seq<MoodModel>, q: string): (r: seq<MoodModel>)
    ensures forall m :: m in r <==> m in source && Contains(Lowercase(m.note), q)
    ensures forall m :: multiset(r)[m] == if Contains(Lowercase(m.note), q) then multiset(source)[m] else 0
  {
    if source == [] then []
    else
      var rest := NoteMatches(source[1..], q);
      assert source == [source[0]] + source[1..];
      (if Contains(Lowercase(source[0].note), q) then [source[0]] else []) + rest
  }

  /** `applyKeywordFilter`: the query is trimmed and lower-cased; an empty query keeps
      everything, any other query keeps every copy of each entry whose note matches. */
  function KeywordFilter(source: seq<MoodModel>, query: string): (r: seq<MoodModel>)
    ensures Lowercase(Trim(query)) == [] ==> r == source
  {
    var q := Lowercase(Trim(query));
    if q == [] then source else NoteMatches(source, q)
  }

  lemma {:induction false} NoteMatchesSubsequence(source: seq<MoodModel>, q: string)
    ensures IsSubsequence(NoteMatches(source, q), source)
  {
    if source != [] {
      NoteMatchesSubsequence(source[1..], q);
      var rest := NoteMatches(source[1..], q);
      if Contains(Lowercase(source[0].note), q) {
        assert ([source[0]] + rest)[1..] == rest;
      } else {
        assert NoteMatches(source, q) == rest;
      }
    }
  }

  /** A blank query keeps the list as it is; any other query keeps, in order, exactly the
      entries whose lower-cased note contains the trimmed, lower-cased query. */
  lemma KeywordFilterSpec(source: seq<MoodModel>, query: string)
    ensures var q := Lowercase(Trim(query));
      (AllWhitespace(query) ==> KeywordFilter(source, query) == source)
      && (!AllWhitespace(query) ==> forall m :: m in KeywordFilter(source, query) <==> m in source && Contains(Lowercase(m.note), q))
      && (!AllWhitespace(query) ==>
            forall m :: multiset(KeywordFilter(source, query))[m] ==
              if Contains(Lowercase(m.note), q) then multiset(source)[m] else 0)
      && IsSubsequence(KeywordFilter(source, query), source)
  {
    var q := Lowercase(Trim(query));
    if q == [] {
      SubsequenceOfItself(source);
    } else {
      NoteMatchesSubsequence(source, q);
    }
  }

  /** Only the note is searched: entries with the same note are kept or dropped together. */
  lemma KeywordFilterNoteOnly(a: MoodModel, b: MoodModel, query: string)
    requires a.note == b.note
    ensures KeywordFilter([a], query) == [a] <==> KeywordFilter([b], query) == [b]
  {
    var q := Lowercase(Trim(query));
    if q != [] {
      assert NoteMatches([a], q) == (if Contains(Lowercase(a.note), q) then [a] else []) + NoteMatches([], q);
      assert NoteMatches([b], q) == (if Contains(Lowercase(b.note), q) then [b] else []) + NoteMatches([], q);
    }
  }

  /** The date test of `filterSummaries`: a key that does not parse passes; otherwise
      the date must be on or after `from` and on or before `to`, a missing bound being open. */
  predicate DatePasses(key: string, from: Option<LocalDate>, to: Option<LocalDate>)
    ensures from.None? && to.None? ==> DatePasses(key, from, to)
    ensures ParseIsoDate(key).Some? && from.Some? && to == from ==>
      (DatePasses(key, from, to) <==> ParseIsoDate(key).value == from.value)
  {
    match ParseIsoDate(key)
    case None => true
    case Some(ld) => (from.None? || !IsBefore(ld, from.value)) && (to.None? || !IsBefore(to.value, ld))
  }

  /** The average test: -2.0 or below means "All". */
  predicate AvgPasses(avg: real, minAvg: real)
    ensures -2.0 <= avg ==> (AvgPasses(avg, minAvg) <==> avg >= minAvg)
  {
    minAvg <= -2.0 || avg >= minAvg
  }

  /** `filterSummaries`. */
  function FilterSummaries(days: seq<DailyMoodSummary>, from: Option<LocalDate>, to: Option<LocalDate>, minAvg: real): (r: seq<DailyMoodSummary>)
    ensures forall d :: d in r <==> d in days && DatePasses(d.date, from, to) && AvgPasses(d.averageScore, minAvg)
  {
    if days == [] then []
    else
      (if DatePasses(days[0].date, from, to) && AvgPasses(days[0].averageScore, minAvg) then [days[0]] else [])
      + FilterSummaries(days[1..], from, to, minAvg)
  }

  /** For a key that parses, the date test is the inclusive range test on the key text:
      the bounds' texts compared with the key as strings. */
  lemma DatePassesOnText(key: string, from: Option<LocalDate>, to: Option<LocalDate>)
    requires ParseIsoDate(key).Some?
    requires from.Some? ==> 0 <= from.value.year <= 9999
    requires to.Some? ==> 0 <= to.value.year <= 9999
    ensures DatePasses(key, from, to) <==>
      (from.None? || LexLe(FormatIsoDate(from.value), key)) && (to.None? || LexLe(key, FormatIsoDate(to.value)))
  {
    var ld := ParseIsoDate(key).value;
    FormatParse(key);
    if from.Some? { TextOrderIsDateOrder(from.value, ld); }
    if to.Some? { TextOrderIsDateOrder(ld, to.value); }
  }

  /** With no bounds and the "All" average, nothing is filtered out. */
  lemma {:induction false} FilterSummariesOpen(days: seq<DailyMoodSummary>, minAvg: real)
    ensures minAvg <= -2.0 ==> FilterSummaries(days, None, None, minAvg) == days
  {
    if days != [] {
      FilterSummariesOpen(days[1..], minAvg);
      assert days == [days[0]] + days[1..];
    }
  }

  /** The filter keeps the cards it keeps in their order, so dates still strictly descend. */
  lemma {:induction false} FilterSummariesKeepsOrder(days: seq<DailyMoodSummary>, from: Option<LocalDate>, to: Option<LocalDate>, minAvg: real)
    requires forall i, j :: 0 <= i < j < |days| ==> LexLt(days[j].date, days[i].date)
    ensures var r := FilterSummaries(days, from, to, minAvg);
      IsSubsequence(r, days) && forall i, j :: 0 <= i < j < |r| ==> LexLt(r[j].date, r[i].date)
  {
    if days != [] {
      FilterSummariesKeepsOrder(days[1..], from, to, minAvg);
      var rest := FilterSummaries(days[1..], from, to, minAvg);
      if DatePasses(days[0].date, from, to) && AvgPasses(days[0].averageScore, minAvg) {
        var r := [days[0]] + rest;
        assert r[1..] == rest;
        forall j | 0 < j < |r| ensures LexLt(r[j].date, r[0].date) {
          assert r[j] in days[1..];
        }
      } else {
        assert FilterSummaries(days, from, to, minAvg) == rest;
      }
    }
  }

  /** `refreshList`'s cards: keyword filter, then grouping, then the date and average filters. */
  function Pipeline(all: seq<MoodModel>, query: string, from: Option<LocalDate>, to: Option<LocalDate>, minAvg: real): (r: seq<DailyMoodSummary>)
    ensures AllWhitespace(query) && from.None? && to.None? && minAvg <= -2.0 ==> r == GroupByDay(all)
  {
    FilterSummariesOpen(GroupByDay(KeywordFilter(all, query)), minAvg);
    FilterSummaries(GroupByDay(KeywordFilter(all, query)), from, to, minAvg)
  }

  /** What the list shows: cards of the entries matching the query, each one the correct
      card of its date for those entries, exactly the ones passing both tests, newest day first.
      Because the keyword filter runs first, a card's average counts only matching entries. */
  lemma PipelineSpec(all: seq<MoodModel>, query: string, from: Option<LocalDate>, to: Option<LocalDate>, minAvg: real)
    ensures var matched := KeywordFilter(all, query);
      var shown := Pipeline(all, query, from, to, minAvg);
      (forall d :: d in shown ==> IsDayOf(matched, d) && DatePasses(d.date, from, to) && AvgPasses(d.averageScore, minAvg))
      && (forall d :: d in GroupByDay(matched) && DatePasses(d.date, from, to) && AvgPasses(d.averageScore, minAvg) ==> d in shown)
      && (forall i, j :: 0 <= i < j < |shown| ==> LexLt(shown[j].date, shown[i].date))
      && (forall d :: d in shown ==> d.averageScore == Mean(OnDay(matched, d.date)))
  {
    var matched := KeywordFilter(all, query);
    GroupByDayCorrect(matched);
    FilterSummariesKeepsOrder(GroupByDay(matched), from, to, minAvg);
  }

  /** With the reset values the list shows every day of every entry, unfiltered. */
  lemma PipelineDefaults(all: seq<MoodModel>)
    ensures Pipeline(all, "", None, None, -2.0) == GroupByDay(all)
  {
    assert Lowercase(Trim("")) == [];
    FilterSummariesOpen(GroupByDay(all), -2.0);
  }

  // ---------------------------------------------------------------------------
  // The screen
  // ---------------------------------------------------------------------------

  /** `MoodListActivity`'s filter state and the cards it last handed to the adapter. */
  class MoodListScreen {
    const store: MoodJSONStore
    var allMoods: seq<MoodModel>
    var queryText: string
    var dateFrom: Option<LocalDate>
    var dateTo: Option<LocalDate>
    var minDailyAvg: real
    var shown: seq<DailyMoodSummary>

    /** The cards on screen are always the pipeline over the current state. */
    ghost predicate Valid()
      reads this
    {
      shown == Pipeline(allMoods, queryText, dateFrom, dateTo, minDailyAvg)
    }

    /** `onCreate`: load every entry, start from the default filters and render. */
    constructor (store: MoodJSONStore)
      ensures this.store == store && allMoods == store.moods
      ensures queryText == "" && dateFrom == None && dateTo == None && minDailyAvg == -2.0
      ensures Valid() && shown == GroupByDay(allMoods)
    {
      var moods := store.FindAll();
      this.store := store;
      allMoods := moods;
      queryText := "";
      dateFrom := None;
      dateTo := None;
      minDailyAvg := -2.0;
      new;
      RefreshList();
      PipelineDefaults(allMoods);
    }

    /** `refreshList`. */
    method RefreshList()
      modifies this`shown
      ensures Valid()
    {
      var keywordFiltered := KeywordFilter(allMoods, queryText);
      var summaries := GroupByDay(keywordFiltered);
      shown := FilterSummaries(summaries, dateFrom, dateTo, minDailyAvg);
    }

    /** The search box changed; a null text counts as empty. */
    method OnQueryChanged(text: Option<string>)
      modifies this`queryText, this`shown
      ensures queryText == (if text.Some? then text.value else "") && Valid()
    {
      queryText := if text.Some? then text.value else "";
      RefreshList();
    }

    /** The "All" date chip was checked: both bounds open. */
    method OnAllDatesChecked()
      modifies this`dateFrom, this`dateTo, this`shown
      ensures dateFrom == None && dateTo == None && Valid()
    {
      dateFrom := None;
      dateTo := None;
      RefreshList();
    }

    /** The "Today" chip was checked; `today` stands for `LocalDate.now()`. */
    method OnTodayChecked(today: LocalDate)
      modifies this`dateFrom, this`dateTo, this`shown
      ensures dateFrom == Some(today) && dateTo == Some(today) && Valid()
    {
      dateFrom := Some(today);
      dateTo := Some(today);
      RefreshList();
    }

    /** The "Last 7" chip was checked: from six days before today to today. */
    method OnLast7Checked(today: LocalDate)
      modifies this`dateFrom, this`dateTo, this`shown
      ensures dateFrom == Some(MinusDays(today, 6)) && dateTo == Some(today) && Valid()
    {
      dateFrom := Some(MinusDays(today, 6));
      dateTo := Some(today);
      RefreshList();
    }

    /** The minimum-average slider moved. */
    method OnSliderChanged(value: real)
      modifies this`minDailyAvg, this`shown
      ensures minDailyAvg == value && Valid()
    {
      minDailyAvg := value;
      RefreshList();
    }

    /** "Reset": empty query, open dates, "All" average; every day is shown again. */
    method OnReset()
      modifies this`queryText, this`dateFrom, this`dateTo, this`minDailyAvg, this`shown
      ensures queryText == "" && dateFrom == None && dateTo == None && minDailyAvg == -2.0
      ensures Valid() && shown == GroupByDay(allMoods)
    {
      queryText := "";
      dateFrom := None;
      dateTo := None;
      minDailyAvg := -2.0;
      RefreshList();
      assert shown == Pipeline(allMoods, "", None, None, -2.0);
      PipelineDefaults(allMoods);
    }

    /** An entry was added, edited or deleted elsewhere: reload from the store and refilter. */
    method OnDataChanged()
      modifies this`allMoods, this`shown
      ensures allMoods == store.moods && Valid()
    {
      allMoods := store.FindAll();
      RefreshList();
    }
  }
}
