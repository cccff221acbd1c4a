/** The list screen's presenter (MoodListPresenter.kt): it loads every entry from the
    store and hands the view its day cards, with no filters applied. */
module MoodListPresenter {
  import opened Wrappers
  import opened MoodRecords
  import opened MoodStorage
  import opened DayGrouping
  import opened MoodList

  /** `loadMoods`: the cards handed to `renderList` are a day grouping of every stored
      entry, which is the same list the list screen shows with its filters reset. */
  method LoadMoods(store: MoodJSONStore) returns (days: seq<DailyMoodSummary>)
    ensures days == GroupByDay(store.moods)
    ensures IsDayGrouping(store.moods, days)
    ensures days == Pipeline(store.moods, "", None, None, -2.0)
  {
    var moods := store.FindAll();
    days := GroupByDay(moods);
    GroupByDayCorrect(moods);
    PipelineDefaults(moods);
  }
}
