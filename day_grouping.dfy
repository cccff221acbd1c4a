/** The day cards: entries grouped by the date part of their timestamp, each day's
    entries newest first with their mean score, the days newest first. The list
    screen, its presenter, the insights screen and its presenter all group this way. */
module DayGrouping {
  import opened AsciiText
  import opened Sequences
  import opened StableSort
  import opened MoodEnums
  import opened MoodRecords

  /** `timestamp.take(10)`: the "yyyy-MM-dd" part, or the whole text when shorter. */
  function DayKey(timestamp: string): (r: string)
    ensures |r| == if |timestamp| < 10 then |timestamp| else 10
    ensures r <= timestamp
  {
    timestamp[..if |timestamp| < 10 then |timestamp| else 10]
  }

  function EntryDay(m: MoodModel): string { DayKey(m.timestamp) }
  function TimestampKey(m: MoodModel): string { m.timestamp }
  function DateKey(d: DailyMoodSummary): string { d.date }
  function SameString(s: string): string { s }

  /** The entries of `list` recorded on day `k`, in list order: `groupBy`'s bucket for `k`. */
  function OnDay(list: seq<MoodModel>, k: string): seq<MoodModel> {
    WithKey(list, EntryDay, k)
  }

  function SumScores(ms: seq<MoodModel>): int {
    if ms == [] then 0 else ms[0].moodType.Score() + SumScores(ms[1..])
  }

  /** `map { it.type.score }.average()`, and 0.0 for no entries. */
  function Mean(ms: seq<MoodModel>): real {
    if ms == [] then 0.0 else (SumScores(ms) as real) / (|ms| as real)
  }

  /** `groupBy`'s keys: the distinct days of `list` in order of first appearance. */
  function DayKeys(list: seq<MoodModel>): (ks: seq<string>)
    ensures NoDuplicates(ks)
    ensures forall k :: k in ks <==> exists i :: 0 <= i < |list| && EntryDay(list[i]) == k
  {
    if list == [] then []
    else
      var prefix := list[..|list| - 1];
      var ks := DayKeys(prefix);
      var k := EntryDay(list[|list| - 1]);
      assert forall i :: 0 <= i < |prefix| ==> prefix[i] == list[i];
      if k in ks then ks else ks + [k]
  }

  /** One day card, as the `map` step builds it. */
  function Summarize(list: seq<MoodModel>, k: string): DailyMoodSummary {
    var sorted := SortDesc(OnDay(list, k), TimestampKey);
    DailyMoodSummary(k, sorted, Mean(sorted))
  }

  function SummarizeAll(list: seq<MoodModel>, ks: seq<string>): (r: seq<DailyMoodSummary>)
    ensures |r| == |ks|
    ensures forall i :: 0 <= i < |ks| ==> r[i] == Summarize(list, ks[i])
  {
    if ks == [] then [] else [Summarize(list, ks[0])] + SummarizeAll(list, ks[1..])
  }

  /** `toDailySummaries` / `getDailySummaries`. */
  function GroupByDay(list: seq<MoodModel>): (r: seq<DailyMoodSummary>)
    ensures |r| == |DayKeys(list)|
  {
    SortDesc(SummarizeAll(list, DayKeys(list)), DateKey)
  }

  // ---------------------------------------------------------------------------
  // The reference definition of a correct grouping
  // ---------------------------------------------------------------------------

  /** `d` is the card of its date: it holds exactly the entries of that date, newest
      first with ties in list order, and their mean. */
  ghost predicate IsDayOf(list: seq<MoodModel>, d: DailyMoodSummary) {
    d.moods != []
    && multiset(d.moods) == multiset(OnDay(list, d.date))
    && SortedDesc(d.moods, TimestampKey)
    && (forall t :: WithKey(d.moods, TimestampKey, t) == WithKey(OnDay(list, d.date), TimestampKey, t))
    && d.averageScore == Mean(OnDay(list, d.date))
  }

  /** One card per day that has entries, none for other days, dates strictly descending. */
  ghost predicate IsDayGrouping(list: seq<MoodModel>, days: seq<DailyMoodSummary>) {
    (forall i :: 0 <= i < |days| ==> IsDayOf(list, days[i]))
    && (forall i, j :: 0 <= i < j < |days| ==> LexLt(days[j].date, days[i].date))
    && (forall k :: k in Dates(days) <==> exists i :: 0 <= i < |list| && EntryDay(list[i]) == k)
  }

  /** The cards' dates, in card order. */
  function Dates(days: seq<DailyMoodSummary>): (r: seq<string>)
    ensures |r| == |days|
    ensures forall i :: 0 <= i < |days| ==> r[i] == days[i].date
  {
    if days == [] then [] else [days[0].date] + Dates(days[1..])
  }

  // ---------------------------------------------------------------------------
  // Scores
  // ---------------------------------------------------------------------------

  lemma {:induction false} SumScoresConcat(a: seq<MoodModel>, b: seq<MoodModel>)
    ensures SumScores(a + b) == SumScores(a) + SumScores(b)
  {
    if a == [] {
      assert a + b == b;
    } else {
      SumScoresConcat(a[1..], b);
      assert (a + b)[0] == a[0];
      assert (a + b)[1..] == a[1..] + b;
    }
  }

  lemma SumScoresRemove(b: seq<MoodModel>, i: int)
    requires 0 <= i < |b|
    ensures SumScores(b) == b[i].moodType.Score() + SumScores(b[..i] + b[i + 1..])
  {
    var p, q := b[..i], b[i + 1..];
    var t := [b[i]] + q;
    assert b == p + t;
    assert t[0] == b[i] && t[1..] == q;
    assert SumScores(t) == b[i].moodType.Score() + SumScores(q);
    SumScoresConcat(p, t);
    SumScoresConcat(p, q);
  }

  lemma MultisetRemove<T>(a: seq<T>, b: seq<T>, i: int)
    requires multiset(a) == multiset(b) && a != [] && 0 <= i < |b| && b[i] == a[0]
    ensures multiset(a[1..]) == multiset(b[..i] + b[i + 1..])
  {
    assert a == [a[0]] + a[1..];
    assert b == b[..i] + [b[i]] + b[i + 1..];
    assert multiset(a) == multiset{a[0]} + multiset(a[1..]);
    assert multiset(b) == multiset(b[..i]) + multiset{b[i]} + multiset(b[i + 1..]);
    assert multiset(b[..i] + b[i + 1..]) == multiset(b[..i]) + multiset(b[i + 1..]);
    forall x ensures multiset(a[1..])[x] == multiset(b[..i] + b[i + 1..])[x] {
      assert multiset(a)[x] == multiset{a[0]}[x] + multiset(a[1..])[x];
      assert multiset(b)[x] == multiset(b[..i])[x] + multiset{b[i]}[x] + multiset(b[i + 1..])[x];
    }
  }

  lemma {:induction false} SumScoresPermutation(a: seq<MoodModel>, b: seq<MoodModel>)
    requires multiset(a) == multiset(b)
    ensures SumScores(a) == SumScores(b)
  {
    if a == [] {
      assert |b| == |multiset(b)| == 0;
    } else {
      assert a[0] in multiset(b);
      var i :| 0 <= i < |b| && b[i] == a[0];
      MultisetRemove(a, b, i);
      SumScoresPermutation(a[1..], b[..i] + b[i + 1..]);
      SumScoresRemove(b, i);
    }
  }

  /** The average does not depend on the order of the entries. */
  lemma MeanPermutation(a: seq<MoodModel>, b: seq<MoodModel>)
    requires multiset(a) == multiset(b)
    ensures Mean(a) == Mean(b)
  {
    assert |a| == |multiset(a)| == |multiset(b)| == |b|;
    SumScoresPermutation(a, b);
  }

  lemma {:induction false} SumScoresBounds(ms: seq<MoodModel>)
    ensures -2 * |ms| <= SumScores(ms) <= 2 * |ms|
  {
    if ms != [] {
      SumScoresBounds(ms[1..]);
      ScoresInRange(ms[0].moodType);
    }
  }

  lemma RatioInRange(s: int, n: int)
    requires n > 0 && -2 * n <= s <= 2 * n
    ensures -2.0 <= (s as real) / (n as real) <= 2.0
  {
  }

  /** The average times the count is the score sum; no entries average 0. */
  lemma MeanTimesCount(ms: seq<MoodModel>)
    ensures ms == [] ==> Mean(ms) == 0.0
    ensures Mean(ms) * (|ms| as real) == SumScores(ms) as real
  {
  }

  /** The average of two lists together is their averages weighted by their counts. */
  lemma MeanConcat(a: seq<MoodModel>, b: seq<MoodModel>)
    ensures Mean(a + b) * ((|a| + |b|) as real) == Mean(a) * (|a| as real) + Mean(b) * (|b| as real)
  {
    calc {
      Mean(a + b) * ((|a| + |b|) as real);
      { assert |a + b| == |a| + |b|; }
      Mean(a + b) * (|a + b| as real);
      { MeanTimesCount(a + b); }
      SumScores(a + b) as real;
      { SumScoresConcat(a, b); }
      (SumScores(a) as real) + (SumScores(b) as real);
      { MeanTimesCount(a); MeanTimesCount(b); }
      Mean(a) * (|a| as real) + Mean(b) * (|b| as real);
    }
  }

  /** A day's average lies between the lowest and the highest score. */
  lemma MeanInRange(ms: seq<MoodModel>)
    ensures -2.0 <= Mean(ms) <= 2.0
  {
    if ms != [] {
      SumScoresBounds(ms);
      RatioInRange(SumScores(ms), |ms|);
    }
  }

  // ---------------------------------------------------------------------------
  // The implementation meets the reference definition
  // ---------------------------------------------------------------------------

  lemma {:induction false} InsertCommutes(list: seq<MoodModel>, k: string, t: seq<string>)
    ensures InsertDesc(Summarize(list, k), SummarizeAll(list, t), DateKey)
         == SummarizeAll(list, InsertDesc(k, t, SameString))
  {
    if t != [] && !LexLe(t[0], k) {
      InsertCommutes(list, k, t[1..]);
      assert SummarizeAll(list, t)[1..] == SummarizeAll(list, t[1..]);
    }
  }

  /** Sorting the cards by date is summarising the days in descending date order. */
  lemma {:induction false} SortSummariesCommutes(list: seq<MoodModel>, ks: seq<string>)
    ensures SortDesc(SummarizeAll(list, ks), DateKey) == SummarizeAll(list, SortDesc(ks, SameString))
  {
    if ks != [] {
      var all := SummarizeAll(list, ks);
      assert all[1..] == SummarizeAll(list, ks[1..]);
      SortSummariesCommutes(list, ks[1..]);
      InsertCommutes(list, ks[0], SortDesc(ks[1..], SameString));
    }
  }

  lemma {:induction false} WithKeyNonEmpty<T>(s: seq<T>, key: T -> string, i: int)
    requires 0 <= i < |s|
    ensures WithKey(s, key, key(s[i])) != []
  {
    if i > 0 && key(s[0]) != key(s[i]) {
      WithKeyNonEmpty(s[1..], key, i - 1);
    }
  }

  lemma SummarizeIsDayOf(list: seq<MoodModel>, k: string)
    requires exists i :: 0 <= i < |list| && EntryDay(list[i]) == k
    ensures IsDayOf(list, Summarize(list, k))
  {
    var i :| 0 <= i < |list| && EntryDay(list[i]) == k;
    WithKeyNonEmpty(list, EntryDay, i);
    var bucket := OnDay(list, k);
    SortDescSortedPermutation(bucket, TimestampKey);
    forall t ensures WithKey(SortDesc(bucket, TimestampKey), TimestampKey, t) == WithKey(bucket, TimestampKey, t) {
      SortDescStable(bucket, TimestampKey, t);
    }
    MeanPermutation(SortDesc(bucket, TimestampKey), bucket);
  }

  /** The distinct days in descending order, with the days of the list as members. */
  lemma SortedDayKeys(list: seq<MoodModel>)
    ensures var sk := SortDesc(DayKeys(list), SameString);
      NoDuplicates(sk)
      && (forall i, j :: 0 <= i < j < |sk| ==> LexLt(sk[j], sk[i]))
      && (forall k :: k in sk <==> k in DayKeys(list))
  {
    var ks := DayKeys(list);
    var sk := SortDesc(ks, SameString);
    SortDescSortedPermutation(ks, SameString);
    NoDuplicatesPermutation(ks, sk);
    forall k ensures k in sk <==> k in ks {
      assert k in sk <==> k in multiset(sk);
      assert k in ks <==> k in multiset(ks);
    }
  }

  /** The grouping the screens display meets the reference definition. */
  lemma GroupByDayCorrect(list: seq<MoodModel>)
    ensures IsDayGrouping(list, GroupByDay(list))
  {
    var sk := SortDesc(DayKeys(list), SameString);
    SortSummariesCommutes(list, DayKeys(list));
    SortedDayKeys(list);
    var days := SummarizeAll(list, sk);
    assert GroupByDay(list) == days;
    forall i | 0 <= i < |days| ensures IsDayOf(list, days[i]) {
      assert sk[i] in DayKeys(list);
      SummarizeIsDayOf(list, sk[i]);
    }
    assert Dates(days) == sk;
  }

  // ---------------------------------------------------------------------------
  // Every entry lands in exactly one card
  // ---------------------------------------------------------------------------

  /** The entries whose day is among `keys`, in list order. */
  function OnAnyDay(list: seq<MoodModel>, keys: seq<string>): seq<MoodModel> {
    if list == [] then []
    else (if EntryDay(list[0]) in keys then [list[0]] else []) + OnAnyDay(list[1..], keys)
  }

  /** All cards' entries, card after card. */
  function Flatten(days: seq<DailyMoodSummary>): seq<MoodModel> {
    if days == [] then [] else days[0].moods + Flatten(days[1..])
  }

  lemma {:induction false} OnAnyDayCons(list: seq<MoodModel>, k: string, keys: seq<string>)
    requires k !in keys
    ensures multiset(OnAnyDay(list, [k] + keys)) == multiset(OnDay(list, k)) + multiset(OnAnyDay(list, keys))
  {
    if list != [] {
      OnAnyDayCons(list[1..], k, keys);
    }
  }

  lemma {:induction false} OnAnyDayNone(list: seq<MoodModel>)
    ensures OnAnyDay(list, []) == []
  {
    if list != [] { OnAnyDayNone(list[1..]); }
  }

  lemma {:induction false} OnAnyDayAll(list: seq<MoodModel>, keys: seq<string>)
    requires forall i :: 0 <= i < |list| ==> EntryDay(list[i]) in keys
    ensures OnAnyDay(list, keys) == list
  {
    if list != [] {
      OnAnyDayAll(list[1..], keys);
      assert list == [list[0]] + list[1..];
    }
  }

  lemma {:induction false} FlattenOnAnyDay(list: seq<MoodModel>, days: seq<DailyMoodSummary>)
    requires forall i :: 0 <= i < |days| ==> multiset(days[i].moods) == multiset(OnDay(list, days[i].date))
    requires NoDuplicates(Dates(days))
    ensures multiset(Flatten(days)) == multiset(OnAnyDay(list, Dates(days)))
  {
    if days == [] {
      OnAnyDayNone(list);
    } else {
      var rest := days[1..];
      assert Dates(days) == [days[0].date] + Dates(rest);
      assert forall i :: 0 <= i < |rest| ==> rest[i] == days[i + 1];
      FlattenOnAnyDay(list, rest);
      OnAnyDayCons(list, days[0].date, Dates(rest));
    }
  }

  lemma {:induction false} InFlatten(days: seq<DailyMoodSummary>, m: MoodModel)
    ensures m in Flatten(days) <==> exists i :: 0 <= i < |days| && m in days[i].moods
  {
    if days != [] {
      InFlatten(days[1..], m);
      if m in Flatten(days[1..]) {
        var i :| 0 <= i < |days| - 1 && m in days[1..][i].moods;
        assert m in days[i + 1].moods;
      }
      if i :| 0 <= i < |days| && m in days[i].moods {
        if i > 0 { assert m in days[1..][i - 1].moods; }
      }
    }
  }

  lemma {:induction false} WithKeyMember<T>(s: seq<T>, key: T -> string, k: string, x: T)
    ensures x in WithKey(s, key, k) <==> x in s && key(x) == k
  {
    if s != [] { WithKeyMember(s[1..], key, k, x); }
  }

  /** In a correct grouping each card holds only entries of the list recorded on its date. */
  lemma GroupingEntriesOnTheirDay(list: seq<MoodModel>, days: seq<DailyMoodSummary>, i: int, m: MoodModel)
    requires IsDayGrouping(list, days) && 0 <= i < |days| && m in days[i].moods
    ensures EntryDay(m) == days[i].date && m in list
  {
    assert IsDayOf(list, days[i]);
    assert m in multiset(OnDay(list, days[i].date));
    WithKeyMember(list, EntryDay, days[i].date, m);
  }

  /** In a correct grouping the cards together hold exactly the list's entries, and an
      entry is in the card of its own day and in no other. */
  lemma GroupingPartitions(list: seq<MoodModel>, days: seq<DailyMoodSummary>)
    requires IsDayGrouping(list, days)
    ensures multiset(Flatten(days)) == multiset(list)
    ensures forall m :: m in list <==> exists i :: 0 <= i < |days| && m in days[i].moods
    ensures forall i, j, m :: 0 <= i < |days| && 0 <= j < |days| && m in days[i].moods && m in days[j].moods ==> i == j
  {
    var dates := Dates(days);
    assert NoDuplicates(dates) by {
      forall i, j | 0 <= i < j < |dates| ensures dates[i] != dates[j] {
        assert LexLt(days[j].date, days[i].date);
      }
    }
    assert forall i :: 0 <= i < |days| ==> multiset(days[i].moods) == multiset(OnDay(list, days[i].date)) by {
      forall i | 0 <= i < |days| ensures multiset(days[i].moods) == multiset(OnDay(list, days[i].date)) {
        assert IsDayOf(list, days[i]);
      }
    }
    FlattenOnAnyDay(list, days);
    OnAnyDayAll(list, dates);
    forall m ensures m in list <==> exists i :: 0 <= i < |days| && m in days[i].moods {
      InFlatten(days, m);
      assert m in list <==> m in multiset(list);
      assert m in Flatten(days) <==> m in multiset(Flatten(days));
    }
    forall i, j, m | 0 <= i < |days| && 0 <= j < |days| && m in days[i].moods && m in days[j].moods ensures i == j {
      GroupingEntriesOnTheirDay(list, days, i, m);
      GroupingEntriesOnTheirDay(list, days, j, m);
      assert dates[i] == dates[j];
    }
  }

  /** `groupBy`'s bucket for a day holds every copy of each entry recorded that day,
      and nothing else. */
  lemma {:induction false} OnDayCount(list: seq<MoodModel>, k: string, m: MoodModel)
    ensures multiset(OnDay(list, k))[m] == if EntryDay(m) == k then multiset(list)[m] else 0
  {
    if list != [] {
      OnDayCount(list[1..], k, m);
      assert list == [list[0]] + list[1..];
    }
  }

  /** A card built for any key carries that key, exactly that day's entries newest first,
      and their average; a key no entry has gives a card without entries and average 0. */
  lemma SummarizeFields(list: seq<MoodModel>, k: string)
    ensures var d := Summarize(list, k);
      d.date == k
      && multiset(d.moods) == multiset(OnDay(list, k))
      && SortedDesc(d.moods, TimestampKey)
      && d.averageScore == Mean(OnDay(list, k))
      && (OnDay(list, k) == [] ==> d.moods == [] && d.averageScore == 0.0)
  {
    SortDescSortedPermutation(OnDay(list, k), TimestampKey);
    MeanPermutation(SortDesc(OnDay(list, k), TimestampKey), OnDay(list, k));
  }
}
