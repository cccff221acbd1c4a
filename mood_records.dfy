/** The records of the data layer: one logged mood entry and one derived day summary. */
module MoodRecords {
  import opened Wrappers
  import opened MoodEnums

  /** A picked map position; the floating-point values are carried, never computed with. */
  datatype Location = Location(lat: real, lng: real, zoom: real)

  /** One mood entry as the store keeps it. `id` 0 means "not assigned yet";
      `timestamp` is "yyyy-MM-dd HH:mm:ss" text. */
  datatype MoodModel = MoodModel(
    id: int,
    moodType: MoodType,
    note: string,
    sleep: Option<SleepQuality>,
    social: Option<SocialActivity>,
    hobby: Option<Hobby>,
    food: Option<FoodType>,
    timestamp: string,
    photoUri: Option<string>,
    location: Option<Location>)

  /** One day card: the "yyyy-MM-dd" key, that day's entries and their mean score. */
  datatype DailyMoodSummary = DailyMoodSummary(date: string, moods: seq<MoodModel>, averageScore: real)
}
