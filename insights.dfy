/** The Insights screen, in its two versions: the activity (InsightsActivity.kt) and
    the presenter (InsightsPresenter.kt). Both walk a list of day cards, newest first,
    with two chevrons. Each shows the day's date, its average, banded into a mood label,
    and a count per mood type. The presenter also picks a playlist for the band. */
module Insights {
  import opened Wrappers
  import opened MoodEnums
  import opened MoodRecords
  import opened MoodStorage
  import opened DayGrouping

  // ---------------------------------------------------------------------------
  // Score bands
  // ---------------------------------------------------------------------------

  /** The mood whose band holds the average. Each mood owns the scores from half a point
      below its own score up to, but not including, half a point above it. The ends are
      open: Happy takes everything from 1.5 up and Angry everything below -1.5. */
  function Band(avg: real): (m: MoodType)
    ensures m == Angry || m.Score() as real - 0.5 <= avg
    ensures m == Happy || avg < m.Score() as real + 0.5
  {
    if avg >= 1.5 then Happy
    else if avg >= 0.5 then Relaxed
    else if avg >= -0.5 then Neutral
    else if avg >= -1.5 then Sad
    else Angry
  }

  /** `avgLabelFor`, which is also the label chosen in `renderDay`. */
  function AvgLabelFor(avg: real): (r: string)
    ensures r == Band(avg).Label()
  {
    if avg >= 1.5 then "Happy \U{1F60A}"
    else if avg >= 0.5 then "Relaxed \U{1F60C}"
    else if avg >= -0.5 then "Neutral \U{1F610}"
    else if avg >= -1.5 then "Sad \U{1F622}"
    else "Angry \U{1F620}"
  }

  /** The Spotify playlists, one per band: the playlist path, the playlist's id and
      the share parameters. */
  const PlaylistPath: string := "https://open.spotify.com/playlist/"
  const HappyPlaylist: string := PlaylistPath + "0jrlHA5UmxRxJjoykf7qRY" + "?si=nIQRZZctSweuaJ-hFQ0ezA&pi=wgl1rOciSwSfm"
  const RelaxedPlaylist: string := PlaylistPath + "7mBi5NbnmRIw60o8GCWHDg" + "?si=6aFrE9oBQ3KYxkXErRcSFg&pi=EHZ5weKLSWyBn"
  const NeutralPlaylist: string := PlaylistPath + "37i9dQZF1EIcJuX6lvhrpW" + "?si=UQi7HmGwQHmSKT-8ZJhBMQ&pi=w8QhyZiIRAmC8"
  const SadPlaylist: string := PlaylistPath + "4bRQf8bwAIVgCb6Lcoursx" + "?si=VHWLE9zPTSGNxfVk1OZ2JQ&pi=PoH0HGsGQVSKH"
  const AngryPlaylist: string := PlaylistPath + "67STztGl7srSMNn6hVYPFR" + "?si=YzgRdjzXTK-_pxca1ijBtA&pi=PSAWWS2PT_O8A"

  /** `playlistUrlFor`: a Spotify playlist for each band. */
  function PlaylistUrlFor(avg: real): (r: Option<string>)
    ensures r.Some?
  {
    if avg >= 1.5 then Some(HappyPlaylist)
    else if avg >= 0.5 then Some(RelaxedPlaylist)
    else if avg >= -0.5 then Some(NeutralPlaylist)
    else if avg >= -1.5 then Some(SadPlaylist)
    else Some(AngryPlaylist)
  }

  /** A higher average never lands in a lower band. */
  lemma BandMonotone(a: real, b: real)
    requires a <= b
    ensures Band(a).Score() <= Band(b).Score()
  {
  }

  /** A day whose entries all share one mood is labelled with that mood. */
  lemma BandOfScore(m: MoodType)
    ensures Band(m.Score() as real) == m
  {
  }

  /** Over the range of possible averages, the band's score is within half a point
      of the average. */
  lemma BandIsNearest(avg: real)
    requires -2.0 <= avg <= 2.0
    ensures -0.5 <= avg - Band(avg).Score() as real <= 0.5
  {
  }

  /** The label names the band, and different bands get different labels. */
  lemma LabelsDistinguishBands(a: real, b: real)
    ensures AvgLabelFor(a) == AvgLabelFor(b) <==> Band(a) == Band(b)
  {
    var la, lb := AvgLabelFor(a), AvgLabelFor(b);
    if Band(a) != Band(b) {
      assert la[0] != lb[0];
    }
  }

  /** The five playlists differ in the first character of their ids. */
  lemma PlaylistsDistinct()
    ensures [HappyPlaylist[34], RelaxedPlaylist[34], NeutralPlaylist[34], SadPlaylist[34], AngryPlaylist[34]]
            == ['0', '7', '3', '4', '6']
  {
  }

  /** The playlist bands are the label bands: two averages get the same playlist
      exactly when they get the same label. */
  lemma PlaylistBandsAreLabelBands(a: real, b: real)
    ensures PlaylistUrlFor(a) == PlaylistUrlFor(b) <==> AvgLabelFor(a) == AvgLabelFor(b)
  {
    LabelsDistinguishBands(a, b);
    PlaylistsDistinct();
  }

  // ---------------------------------------------------------------------------
  // Counts per mood
  // ---------------------------------------------------------------------------

  /** `moods.count { it.type == m }`. */
  function CountOf(moods: seq<MoodModel>, m: MoodType): (n: nat)
    ensures n <= |moods|
    ensures n > 0 <==> exists i :: 0 <= i < |moods| && moods[i].moodType == m
  {
    if moods == [] then 0
    else (if moods[0].moodType == m then 1 else 0) + CountOf(moods[1..], m)
  }

  /** `MoodType.values().associateWith { count }`: one entry per mood type. */
  function Counts(moods: seq<MoodModel>): (r: map<MoodType, int>)
    ensures forall m :: m in r && r[m] == CountOf(moods, m)
  {
    ScoresStrictlyDecreasing();
    map m | m in MoodTypes :: CountOf(moods, m)
  }

  /** The sum of a full count map, in `values()` order. */
  function Total(counts: map<MoodType, int>): int
    requires forall m :: m in counts
  {
    counts[Happy] + counts[Relaxed] + counts[Neutral] + counts[Sad] + counts[Angry]
  }

  /** Every entry is counted under exactly one mood type. */
  lemma {:induction false} CountsSumToSize(moods: seq<MoodModel>)
    ensures Total(Counts(moods)) == |moods|
  {
    if moods != [] {
      CountsSumToSize(moods[1..]);
    }
  }

  // ---------------------------------------------------------------------------
  // Navigation
  // ---------------------------------------------------------------------------

  /** The index into `n` day cards: 0 when there are none, otherwise a card. */
  predicate IndexInRange(n: nat, index: int) {
    if n == 0 then index == 0 else 0 <= index < n
  }

  /** The "previous day" chevron moves one card towards older days, if there is one
      (`index < days.lastIndex`, where `lastIndex` is `n - 1`). */
  function Older(n: nat, index: int): (r: int)
    ensures IndexInRange(n, index) ==> IndexInRange(n, r)
    ensures r == index + 1 || r == index
    ensures index < n - 1 ==> r == index + 1
    ensures index >= n - 1 ==> r == index
  {
    if index < n - 1 then index + 1 else index
  }

  /** The "next day" chevron moves one card towards newer days, if there is one. */
  function Newer(n: nat, index: int): (r: int)
    ensures IndexInRange(n, index) ==> IndexInRange(n, r)
    ensures r == index - 1 || r == index
    ensures index > 0 ==> r == index - 1
    ensures index <= 0 ==> r == index
  {
    if index > 0 then index - 1 else index
  }

  /** Going back a day and forward again returns to the same card... */
  lemma NewerUndoesOlder(n: nat, index: int)
    requires IndexInRange(n, index) && index < n - 1
    ensures Newer(n, Older(n, index)) == index
  {
  }

  /** ...and so does going forward and then back. */
  lemma OlderUndoesNewer(n: nat, index: int)
    requires IndexInRange(n, index) && index > 0
    ensures Older(n, Newer(n, index)) == index
  {
  }

  /** `k` presses of the "previous day" chevron from the newest day. */
  function OlderTimes(n: nat, index: int, k: nat): int
    decreases k
  {
    if k == 0 then index else OlderTimes(n, Older(n, index), k - 1)
  }

  /** Starting at the newest day, `k` presses show the `k`-th older card, and stop
      at the oldest: every card can be reached. */
  lemma {:induction false} OlderTimesReaches(n: nat, index: int, k: nat)
    requires IndexInRange(n, index)
    ensures OlderTimes(n, index, k) == if n == 0 then 0 else if index + k < n then index + k else n - 1
    decreases k
  {
    if k > 0 {
      OlderTimesReaches(n, Older(n, index), k - 1);
    }
  }

  // ---------------------------------------------------------------------------
  // Rendering
  // ---------------------------------------------------------------------------

  /** What a day card shows: its date, its average label and the counts for the ring
      and the legend. */
  datatype DayCard = DayCard(date: string, avgLabel: string, counts: map<MoodType, int>)

  /** The screen after a render: a card, or the empty state, and whether the chevrons
      are enabled. */
  datatype DayView = DayView(card: Option<DayCard>, prevEnabled: bool, nextEnabled: bool)

  /** `renderDay` / `render`: the empty state when there are no days, otherwise the
      card at `index`, with the chevrons enabled exactly where they can move. */
  function RenderFor(days: seq<DailyMoodSummary>, index: int): (v: DayView)
    requires IndexInRange(|days|, index)
    ensures v.card.None? <==> days == []
    ensures v.card.Some? ==>
      v.card.value.date == days[index].date
      && v.card.value.avgLabel == Band(days[index].averageScore).Label()
      && v.card.value.counts == Counts(days[index].moods)
      && (forall m :: m in v.card.value.counts && v.card.value.counts[m] == CountOf(days[index].moods, m))
      && Total(v.card.value.counts) == |days[index].moods|
    ensures v.prevEnabled <==> Older(|days|, index) != index
    ensures v.nextEnabled <==> Newer(|days|, index) != index
  {
    if days == [] then DayView(None, false, false)
    else
      var day := days[index];
      CountsSumToSize(day.moods);
      DayView(Some(DayCard(day.date, AvgLabelFor(day.averageScore), Counts(day.moods))),
              index < |days| - 1, index > 0)
  }

  /** The average line of the activity: "No data yet", or the label after "Average: ". */
  function AverageText(v: DayView): (r: string)
    ensures v.card.None? ==> r == "No data yet"
    ensures v.card.Some? ==> r == "Average: " + v.card.value.avgLabel
  {
    if v.card.None? then "No data yet" else "Average: " + v.card.value.avgLabel
  }

  /** The playlist for the card at `index`; none while there are no days. */
  function PlaylistFor(days: seq<DailyMoodSummary>, index: int): (r: Option<string>)
    requires IndexInRange(|days|, index)
    ensures r.Some? <==> days != []
  {
    if days == [] then None else PlaylistUrlFor(days[index].averageScore)
  }

  // ---------------------------------------------------------------------------
  // The activity
  // ---------------------------------------------------------------------------

  /** InsightsActivity: the day cards, the index of the one shown (0 is the newest)
      and what is on screen. */
  class InsightsActivity {
    const store: MoodJSONStore
    var days: seq<DailyMoodSummary>
    var index: int
    var shown: DayView

    /** The index names a card (or is 0 when there are none) and the screen shows it. */
    ghost predicate Valid()
      reads this
    {
      IndexInRange(|days|, index) && shown == RenderFor(days, index)
    }

    /** `onCreate`: the first load. */
    constructor (store: MoodJSONStore)
      ensures this.store == store && days == GroupByDay(store.moods) && index == 0 && Valid()
    {
      this.store := store;
      days := [];
      index := 0;
      shown := DayView(None, false, false);
      new;
      ReloadDays();
    }

    /** `reloadDays`: regroup every entry in the store and jump to the newest day. */
    method ReloadDays()
      modifies this`days, this`index, this`shown
      ensures days == GroupByDay(store.moods) && index == 0 && Valid()
    {
      var all := store.FindAll();
      days := GroupByDay(all);
      index := 0;
      RenderDay();
    }

    /** `renderDay`. */
    method RenderDay()
      requires IndexInRange(|days|, index)
      modifies this`shown
      ensures Valid()
    {
      shown := RenderFor(days, index);
    }

    /** The "previous day" chevron: one card older, re-rendered, if there is one. */
    method OnPrevDayClicked()
      requires Valid()
      modifies this`index, this`shown
      ensures index == Older(|days|, old(index)) && Valid()
    {
      if index < |days| - 1 {
        index := index + 1;
        RenderDay();
      }
    }

    /** The "next day" chevron: one card newer, re-rendered, if there is one. */
    method OnNextDayClicked()
      requires Valid()
      modifies this`index, this`shown
      ensures index == Newer(|days|, old(index)) && Valid()
    {
      if index > 0 {
        index := index - 1;
        RenderDay();
      }
    }
  }

  // ---------------------------------------------------------------------------
  // The presenter
  // ---------------------------------------------------------------------------

  /** InsightsPresenter: the same navigation, plus the playlist of the day shown and
      whether its button is visible. */
  class InsightsPresenter {
    const store: MoodJSONStore
    var days: seq<DailyMoodSummary>
    var index: int
    var currentPlaylistUrl: Option<string>
    var shown: DayView
    var playlistButtonShown: bool

    /** The screen, the playlist and its button all follow the card at `index`. */
    ghost predicate Valid()
      reads this
    {
      IndexInRange(|days|, index) && shown == RenderFor(days, index)
      && currentPlaylistUrl == PlaylistFor(days, index)
      && playlistButtonShown == currentPlaylistUrl.Some?
    }

    constructor (store: MoodJSONStore)
      ensures this.store == store && days == [] && index == 0 && currentPlaylistUrl == None
      ensures shown == DayView(None, false, false) && !playlistButtonShown && Valid()
    {
      this.store := store;
      days := [];
      index := 0;
      currentPlaylistUrl := None;
      shown := DayView(None, false, false);
      playlistButtonShown := false;
    }

    /** `load`: regroup every entry in the store and show the newest day. */
    method Load()
      modifies this`days, this`index, this`currentPlaylistUrl, this`shown, this`playlistButtonShown
      ensures days == GroupByDay(store.moods) && index == 0 && Valid()
    {
      var all := store.FindAll();
      days := GroupByDay(all);
      index := 0;
      Render();
    }

    /** `onPrevDay`. */
    method OnPrevDay()
      requires Valid()
      modifies this`index, this`currentPlaylistUrl, this`shown, this`playlistButtonShown
      ensures index == Older(|days|, old(index)) && Valid()
    {
      if index < |days| - 1 {
        index := index + 1;
        Render();
      }
    }

    /** `onNextDay`. */
    method OnNextDay()
      requires Valid()
      modifies this`index, this`currentPlaylistUrl, this`shown, this`playlistButtonShown
      ensures index == Newer(|days|, old(index)) && Valid()
    {
      if index > 0 {
        index := index - 1;
        Render();
      }
    }

    /** `onOpenPlaylist`: the url handed to Spotify or the browser, if any. With a valid
        screen a playlist opens exactly when there is a day to show. */
    method OnOpenPlaylist() returns (url: Option<string>)
      ensures url == currentPlaylistUrl
      ensures Valid() ==> (url.Some? <==> days != [])
    {
      url := currentPlaylistUrl;
    }

    /** `render`: the empty state hides the playlist and disables both chevrons;
        otherwise the card, its playlist and its button are shown. */
    method Render()
      requires IndexInRange(|days|, index)
      modifies this`currentPlaylistUrl, this`shown, this`playlistButtonShown
      ensures Valid()
      ensures days == [] ==> currentPlaylistUrl == None && !playlistButtonShown
                             && !shown.prevEnabled && !shown.nextEnabled
      ensures days != [] ==> playlistButtonShown
    {
      if days == [] {
        currentPlaylistUrl := None;
        shown := DayView(None, false, false);
        playlistButtonShown := false;
        return;
      }
      currentPlaylistUrl := PlaylistFor(days, index);
      playlistButtonShown := currentPlaylistUrl.Some?;
      shown := RenderFor(days, index);
    }
  }
}
