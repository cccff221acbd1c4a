/** The enumerations of MoodEnums.kt: the mood itself, scored for daily averages,
    and the four optional context attributes of an entry. */
module MoodEnums {
  import opened Wrappers

  /** The main emotional state; `values()` order is HAPPY, RELAXED, NEUTRAL, SAD, ANGRY. */
  datatype MoodType = Happy | Relaxed | Neutral | Sad | Angry {

    /** The number averaged into a day's score. */
    function Score(): int {
      match this
      case Happy => 2
      case Relaxed => 1
      case Neutral => 0
      case Sad => -1
      case Angry => -2
    }

    /** The display label, an emoji after the word. */
    function Label(): string {
      match this
      case Happy => "Happy \U{1F60A}"
      case Relaxed => "Relaxed \U{1F60C}"
      case Neutral => "Neutral \U{1F610}"
      case Sad => "Sad \U{1F622}"
      case Angry => "Angry \U{1F620}"
    }

    predicate IsPleasant() { this == Happy || this == Relaxed }
    predicate IsUnpleasant() { this == Sad || this == Angry }
  }

  /** `MoodType.values()`, in declaration order. */
  const MoodTypes: seq<MoodType> := [Happy, Relaxed, Neutral, Sad, Angry]

  lemma ScoresInRange(m: MoodType)
    ensures -2 <= m.Score() <= 2
  {
  }

  /** Scores fall strictly along the declaration order, so no two moods share one. */
  lemma ScoresStrictlyDecreasing()
    ensures forall i, j :: 0 <= i < j < |MoodTypes| ==> MoodTypes[i].Score() > MoodTypes[j].Score()
    ensures forall m :: m in MoodTypes
  {
    forall m ensures m in MoodTypes {
      match m
      case Happy => assert MoodTypes[0] == m;
      case Relaxed => assert MoodTypes[1] == m;
      case Neutral => assert MoodTypes[2] == m;
      case Sad => assert MoodTypes[3] == m;
      case Angry => assert MoodTypes[4] == m;
    }
  }

  lemma ScoreSign(m: MoodType)
    ensures m.Score() > 0 <==> m.IsPleasant()
    ensures m.Score() < 0 <==> m.IsUnpleasant()
    ensures m.Score() == 0 <==> m == Neutral
  {
  }

  datatype SleepQuality = Good | Medium | Poor {
    /** The constant's `name`. */
    function Name(): string {
      match this
      case Good => "GOOD"
      case Medium => "MEDIUM"
      case Poor => "POOR"
    }
  }

  datatype SocialActivity = Family | Friends | Date | Party {
    function Name(): string {
      match this
      case Family => "FAMILY"
      case Friends => "FRIENDS"
      case Date => "DATE"
      case Party => "PARTY"
    }
  }

  datatype Hobby = Movies | Reading | Games | Sport | Relaxation {
    function Name(): string {
      match this
      case Movies => "MOVIES"
      case Reading => "READING"
      case Games => "GAMES"
      case Sport => "SPORT"
      case Relaxation => "RELAXATION"
    }
  }

  datatype FoodType = Healthy | FastFood | Homemade | Restaurant | NoSugar {
    function Name(): string {
      match this
      case Healthy => "HEALTHY"
      case FastFood => "FAST_FOOD"
      case Homemade => "HOMEMADE"
      case Restaurant => "RESTAURANT"
      case NoSugar => "NO_SUGAR"
    }
  }

  /** `SleepQuality.valueOf(name)`; `None` where Kotlin throws. */
  function SleepQualityValueOf(name: string): (r: Option<SleepQuality>)
    ensures r.Some? ==> r.value.Name() == name
  {
    if name == "GOOD" then Some(Good)
    else if name == "MEDIUM" then Some(Medium)
    else if name == "POOR" then Some(Poor)
    else None
  }

  function SocialActivityValueOf(name: string): (r: Option<SocialActivity>)
    ensures r.Some? ==> r.value.Name() == name
  {
    if name == "FAMILY" then Some(Family)
    else if name == "FRIENDS" then Some(Friends)
    else if name == "DATE" then Some(Date)
    else if name == "PARTY" then Some(Party)
    else None
  }

  function HobbyValueOf(name: string): (r: Option<Hobby>)
    ensures r.Some? ==> r.value.Name() == name
  {
    if name == "MOVIES" then Some(Movies)
    else if name == "READING" then Some(Reading)
    else if name == "GAMES" then Some(Games)
    else if name == "SPORT" then Some(Sport)
    else if name == "RELAXATION" then Some(Relaxation)
    else None
  }

  function FoodTypeValueOf(name: string): (r: Option<FoodType>)
    ensures r.Some? ==> r.value.Name() == name
  {
    if name == "HEALTHY" then Some(Healthy)
    else if name == "FAST_FOOD" then Some(FastFood)
    else if name == "HOMEMADE" then Some(Homemade)
    else if name == "RESTAURANT" then Some(Restaurant)
    else if name == "NO_SUGAR" then Some(NoSugar)
    else None
  }

  /** `valueOf` finds every constant by its own name, so names are the exact set of accepted tags. */
  lemma ValueOfName()
    ensures forall v: SleepQuality :: SleepQualityValueOf(v.Name()) == Some(v)
    ensures forall v: SocialActivity :: SocialActivityValueOf(v.Name()) == Some(v)
    ensures forall v: Hobby :: HobbyValueOf(v.Name()) == Some(v)
    ensures forall v: FoodType :: FoodTypeValueOf(v.Name()) == Some(v)
  {
  }

  /** Enum constant names: upper-case ASCII letters and underscores, never empty. */
  predicate IsConstantName(s: string) {
    s != [] && forall i :: 0 <= i < |s| ==> ('A' <= s[i] <= 'Z') || s[i] == '_'
  }

  lemma SleepQualityNameShape(v: SleepQuality)
    ensures IsConstantName(v.Name()) && '_' !in v.Name()
  {
    match v
    case Good => assert v.Name() == ['G', 'O', 'O', 'D'];
    case Medium => assert v.Name() == ['M', 'E', 'D', 'I', 'U', 'M'];
    case Poor => assert v.Name() == ['P', 'O', 'O', 'R'];
  }

  lemma SocialActivityNameShape(v: SocialActivity)
    ensures IsConstantName(v.Name()) && '_' !in v.Name()
  {
    match v
    case Family => assert v.Name() == ['F', 'A', 'M', 'I', 'L', 'Y'];
    case Friends => assert v.Name() == ['F', 'R', 'I', 'E', 'N', 'D', 'S'];
    case Date => assert v.Name() == ['D', 'A', 'T', 'E'];
    case Party => assert v.Name() == ['P', 'A', 'R', 'T', 'Y'];
  }

  lemma HobbyNameShape(v: Hobby)
    ensures IsConstantName(v.Name()) && '_' !in v.Name()
  {
    match v
    case Movies => assert v.Name() == ['M', 'O', 'V', 'I', 'E', 'S'];
    case Reading => assert v.Name() == ['R', 'E', 'A', 'D', 'I', 'N', 'G'];
    case Games => assert v.Name() == ['G', 'A', 'M', 'E', 'S'];
    case Sport => assert v.Name() == ['S', 'P', 'O', 'R', 'T'];
    case Relaxation => assert v.Name() == ['R', 'E', 'L', 'A', 'X', 'A', 'T', 'I', 'O', 'N'];
  }

  lemma FoodTypeNameShape(v: FoodType)
    ensures IsConstantName(v.Name())
  {
    match v
    case Healthy => assert v.Name() == ['H', 'E', 'A', 'L', 'T', 'H', 'Y'];
    case FastFood => assert v.Name() == ['F', 'A', 'S', 'T', '_', 'F', 'O', 'O', 'D'];
    case Homemade => assert v.Name() == ['H', 'O', 'M', 'E', 'M', 'A', 'D', 'E'];
    case Restaurant => assert v.Name() == ['R', 'E', 'S', 'T', 'A', 'U', 'R', 'A', 'N', 'T'];
    case NoSugar => assert v.Name() == ['N', 'O', '_', 'S', 'U', 'G', 'A', 'R'];
  }
}
