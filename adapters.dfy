/** The display helpers of the two list adapters: DailyMoodAdapter draws one card per
    day with its entries and a footer average, and MoodAdapter draws one card per entry.
    Both show each entry's time of day, and one optional row per context attribute
    with the attribute's name in title case. */
module Adapters {
  import opened Wrappers
  import opened AsciiText
  import opened MoodEnums
  import opened MoodRecords
  import opened DayGrouping
  import opened Insights

  // ---------------------------------------------------------------------------
  // Time of day
  // ---------------------------------------------------------------------------

  /** DailyMoodAdapter's `onlyTime`: characters 11 to 15 of the timestamp, or the
      whole text when it is shorter than sixteen characters. */
  function DayCardTime(ts: string): (r: string)
    ensures |ts| >= 16 ==> |r| == 5
    ensures |r| <= |ts|
  {
    if |ts| >= 16 then ts[11..16] else ts
  }

  /** MoodAdapter's `onlyTime`, `substring(11).take(5)`: at most five characters from
      position 11 on; `None` where `substring(11)` throws on a text shorter than that. */
  function EntryCardTime(ts: string): (r: Option<string>)
    ensures r.None? <==> |ts| < 11
    ensures r.Some? ==> |r.value| == (if |ts| >= 16 then 5 else |ts| - 11)
  {
    if |ts| < 11 then None
    else
      var tail := ts[11..];
      Some(if |tail| <= 5 then tail else tail[..5])
  }

  /** On a "yyyy-MM-dd HH:mm:ss" timestamp both adapters show "HH:mm". */
  lemma TimeOfTimestamp(date: string, time: string)
    requires |date| == 10 && |time| == 8
    ensures DayCardTime(date + " " + time) == time[..5]
    ensures EntryCardTime(date + " " + time) == Some(time[..5])
  {
    var ts := date + " " + time;
    assert ts[11..] == time;
    assert ts[11..16] == time[..5];
  }

  /** The two versions agree on every text of sixteen characters or more, and differ
      on the shorter ones that the second accepts: there the first shows the whole
      timestamp, the second only its tail from position 11. */
  lemma OnlyTimesAgree(ts: string)
    ensures |ts| >= 16 ==> EntryCardTime(ts) == Some(DayCardTime(ts))
    ensures 11 <= |ts| < 16 ==> DayCardTime(ts) == ts && EntryCardTime(ts) == Some(ts[11..])
                                && EntryCardTime(ts) != Some(DayCardTime(ts))
  {
    if |ts| > 16 {
      assert ts[11..][..5] == ts[11..16];
    } else if |ts| == 16 {
      assert ts[11..] == ts[11..16];
    }
  }

  // ---------------------------------------------------------------------------
  // Constant names in title case
  // ---------------------------------------------------------------------------

  /** `prettyEnumLabel`, the same in both adapters: lower-case the name, turn each
      underscore into a space, and capitalise the first letter of every word. */
  function PrettyEnumLabel(name: string): (r: string)
    ensures |r| == |name|
  {
    var spaced := ReplaceChar(Lowercase(name), '_', ' ');
    CapitalizeWordsAt(spaced, ' ');
    CapitalizeWords(spaced, ' ')
  }

  /** On a constant name the label keeps the first letter of each word, lower-cases
      the other letters and puts a space for each underscore. */
  lemma PrettyEnumLabelAt(name: string, i: int)
    requires IsConstantName(name) && 0 <= i < |name|
    ensures PrettyEnumLabel(name)[i] ==
      if name[i] == '_' then ' '
      else if i == 0 || name[i - 1] == '_' then name[i]
      else ToLower(name[i])
  {
    var spaced := ReplaceChar(Lowercase(name), '_', ' ');
    var r := PrettyEnumLabel(name);
    assert r == CapitalizeWords(spaced, ' ');
    CapitalizeWordsAt(spaced, ' ');
    assert r[i] == if i == 0 || spaced[i - 1] == ' ' then ToUpper(spaced[i]) else spaced[i];
    if i > 0 {
      assert 'A' <= name[i - 1] <= 'Z' || name[i - 1] == '_';
      assert spaced[i - 1] == ' ' <==> name[i - 1] == '_';
    }
    if name[i] != '_' {
      assert 'A' <= name[i] <= 'Z';
      UpperOfLower(name[i]);
    }
  }

  /** The underscore names come out as two capitalised words. */
  lemma UnderscoreLabels(name: string)
    requires name == "FAST_FOOD" || name == "NO_SUGAR"
    ensures name == "FAST_FOOD" ==> PrettyEnumLabel(name) == "Fast Food"
    ensures name == "NO_SUGAR" ==> PrettyEnumLabel(name) == "No Sugar"
  {
    var r := PrettyEnumLabel(name);
    if name == "FAST_FOOD" {
      assert name == ['F', 'A', 'S', 'T', '_', 'F', 'O', 'O', 'D'];
      assert IsConstantName(name);
      forall i | 0 <= i < |name| { PrettyEnumLabelAt(name, i); }
      assert r[1] == ToLower('A') && r[2] == ToLower('S') && r[3] == ToLower('T');
      assert r[6] == ToLower('O') && r[7] == ToLower('O') && r[8] == ToLower('D');
      assert r == ['F', 'a', 's', 't', ' ', 'F', 'o', 'o', 'd'];
    } else {
      assert name == ['N', 'O', '_', 'S', 'U', 'G', 'A', 'R'];
      assert IsConstantName(name);
      forall i | 0 <= i < |name| { PrettyEnumLabelAt(name, i); }
      assert name[2] == '_' && name[3] == 'S' && name[4] == 'U' && name[5] == 'G' && name[6] == 'A';
      assert r[1] == ToLower('O') && r[4] == ToLower('U') && r[5] == ToLower('G');
      assert r[6] == ToLower('A') && r[7] == ToLower('R');
      assert r == ['N', 'o', ' ', 'S', 'u', 'g', 'a', 'r'];
    }
  }

  // ---------------------------------------------------------------------------
  // Optional rows
  // ---------------------------------------------------------------------------

  /** A context row of an entry card: hidden (`View.GONE`), or shown with a text. */
  datatype Row = Hidden | Shown(text: string)

  /** `setRow`: hidden when the attribute is missing, otherwise the emoji, a space and
      the attribute's name in title case. */
  function SetRow(emoji: string, name: Option<string>): (r: Row)
    ensures r.Hidden? <==> name.None?
    ensures r.Shown? ==> |r.text| == |emoji| + 1 + |name.value| && r.text[..|emoji|] == emoji
                         && r.text[|emoji|] == ' '
    ensures r.Shown? ==> RowLabel(r, emoji) == PrettyEnumLabel(name.value)
  {
    if name.None? then Hidden
    else
      var text := emoji + " " + PrettyEnumLabel(name.value);
      assert text[|emoji| + 1..] == PrettyEnumLabel(name.value);
      Shown(text)
  }

  /** The label of a shown row: what follows the emoji and the space. */
  function RowLabel(r: Row, emoji: string): string
    requires r.Shown?
  {
    if |r.text| > |emoji| then r.text[|emoji| + 1..] else []
  }

  const SleepEmoji: string := "\U{1F6CC}"
  const SocialEmoji: string := "\U{1F465}"
  const HobbyEmoji: string := "\U{1F3A8}"
  const FoodEmoji: string := "\U{1F37D}\U{FE0F}"

  function SleepName(m: MoodModel): Option<string> {
    if m.sleep.Some? then Some(m.sleep.value.Name()) else None
  }

  function SocialName(m: MoodModel): Option<string> {
    if m.social.Some? then Some(m.social.value.Name()) else None
  }

  function HobbyName(m: MoodModel): Option<string> {
    if m.hobby.Some? then Some(m.hobby.value.Name()) else None
  }

  function FoodName(m: MoodModel): Option<string> {
    if m.food.Some? then Some(m.food.value.Name()) else None
  }

  /** The four context rows of an entry, sleep, social, hobby and food: each is shown
      exactly when the entry has that attribute, labelled with its name. */
  function AttributeRows(m: MoodModel): (rows: seq<Row>)
    ensures |rows| == 4
    ensures rows[0].Shown? <==> m.sleep.Some?
    ensures rows[1].Shown? <==> m.social.Some?
    ensures rows[2].Shown? <==> m.hobby.Some?
    ensures rows[3].Shown? <==> m.food.Some?
    ensures m.sleep.Some? ==> RowLabel(rows[0], SleepEmoji) == PrettyEnumLabel(m.sleep.value.Name())
    ensures m.social.Some? ==> RowLabel(rows[1], SocialEmoji) == PrettyEnumLabel(m.social.value.Name())
    ensures m.hobby.Some? ==> RowLabel(rows[2], HobbyEmoji) == PrettyEnumLabel(m.hobby.value.Name())
    ensures m.food.Some? ==> RowLabel(rows[3], FoodEmoji) == PrettyEnumLabel(m.food.value.Name())
  {
    [SetRow(SleepEmoji, SleepName(m)), SetRow(SocialEmoji, SocialName(m)),
     SetRow(HobbyEmoji, HobbyName(m)), SetRow(FoodEmoji, FoodName(m))]
  }

  /** MoodAdapter shows the photo exactly when the entry has a non-empty uri. */
  function PhotoShown(m: MoodModel): (shown: bool)
    ensures shown <==> m.photoUri.Some? && |m.photoUri.value| > 0
  {
    match m.photoUri
    case None => false
    case Some(uri) => uri != []
  }

  // ---------------------------------------------------------------------------
  // Footer of a day card
  // ---------------------------------------------------------------------------

  /** The footer recomputes the average from the card's entries, 0.0 for none. */
  function FooterAverage(day: DailyMoodSummary): (avg: real)
    ensures -2.0 <= avg <= 2.0
  {
    MeanInRange(day.moods);
    Mean(day.moods)
  }

  /** "Average Mood: " and the band label of the footer average. */
  function FooterText(day: DailyMoodSummary): (r: string)
    ensures r == "Average Mood: " + Band(FooterAverage(day)).Label()
  {
    "Average Mood: " + AvgLabelFor(FooterAverage(day))
  }

  /** On every card of a day grouping, the footer's recomputed average is the card's
      own average, so the footer agrees with the Insights label for that day. */
  lemma FooterAgreesWithCard(list: seq<MoodModel>, day: DailyMoodSummary)
    requires IsDayOf(list, day)
    ensures FooterAverage(day) == day.averageScore
    ensures FooterText(day) == "Average Mood: " + AvgLabelFor(day.averageScore)
  {
    MeanPermutation(day.moods, OnDay(list, day.date));
  }

  // ---------------------------------------------------------------------------
  // The adapters
  // ---------------------------------------------------------------------------

  /** DailyMoodAdapter's state: the day cards it draws. */
  class DailyMoodAdapter {
    var days: seq<DailyMoodSummary>

    constructor (days: seq<DailyMoodSummary>)
      ensures this.days == days
    {
      this.days := days;
    }

    /** `getItemCount`: one item per day card. */
    method GetItemCount() returns (n: int)
      ensures n == |days|
    {
      n := |days|;
    }

    /** `submitList`: the new cards replace the old ones wholesale. */
    method SubmitList(newDays: seq<DailyMoodSummary>)
      modifies this`days
      ensures days == newDays
    {
      days := newDays;
    }
  }

  /** MoodAdapter's state: the entries it draws, never changed by the adapter. */
  class MoodAdapter {
    const moods: seq<MoodModel>

    constructor (moods: seq<MoodModel>)
      ensures this.moods == moods
    {
      this.moods := moods;
    }

    /** `getItemCount`: one item per entry. */
    method GetItemCount() returns (n: int)
      ensures n == |moods|
    {
      n := |moods|;
    }
  }
}
