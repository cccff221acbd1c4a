/** The mood editor's save (MoodPresenter.kt): check that a mood is selected, decode
    the four context chips into enum constants, then create a new entry or update the
    one being edited. */
module MoodEditor {
  import opened Wrappers
  import opened AsciiText
  import opened MoodEnums
  import opened MoodRecords
  import opened MoodStorage
  import opened Adapters

  // ---------------------------------------------------------------------------
  // Chip decoding
  // ---------------------------------------------------------------------------

  /** `sleepFromChip`: no chip gives no value; otherwise the upper-cased text must be
      a constant's name, and a text that is none fails (`valueOf` throws) with it. */
  function SleepFromChip(text: Option<string>): (r: Result<Option<SleepQuality>, string>)
    ensures text.None? ==> r == Success(None)
    ensures text.Some? && r.Success? ==> r.value.Some? && r.value.value.Name() == Uppercase(text.value)
    ensures text.Some? ==> (r.Failure? <==> forall v: SleepQuality :: v.Name() != Uppercase(text.value))
  {
    ValueOfName();
    match text
    case None => Success(None)
    case Some(t) =>
      var v := SleepQualityValueOf(Uppercase(t));
      if v.Some? then Success(v) else Failure(Uppercase(t))
  }

  /** `socialFromChip`. */
  function SocialFromChip(text: Option<string>): (r: Result<Option<SocialActivity>, string>)
    ensures text.None? ==> r == Success(None)
    ensures text.Some? && r.Success? ==> r.value.Some? && r.value.value.Name() == Uppercase(text.value)
    ensures text.Some? ==> (r.Failure? <==> forall v: SocialActivity :: v.Name() != Uppercase(text.value))
  {
    ValueOfName();
    match text
    case None => Success(None)
    case Some(t) =>
      var v := SocialActivityValueOf(Uppercase(t));
      if v.Some? then Success(v) else Failure(Uppercase(t))
  }

  /** `hobbyFromChip`. */
  function HobbyFromChip(text: Option<string>): (r: Result<Option<Hobby>, string>)
    ensures text.None? ==> r == Success(None)
    ensures text.Some? && r.Success? ==> r.value.Some? && r.value.value.Name() == Uppercase(text.value)
    ensures text.Some? ==> (r.Failure? <==> forall v: Hobby :: v.Name() != Uppercase(text.value))
  {
    ValueOfName();
    match text
    case None => Success(None)
    case Some(t) =>
      var v := HobbyValueOf(Uppercase(t));
      if v.Some? then Success(v) else Failure(Uppercase(t))
  }

  /** `foodFromChip`: spaces become underscores before upper-casing, so "Fast Food"
      names FAST_FOOD. */
  function FoodFromChip(text: Option<string>): (r: Result<Option<FoodType>, string>)
    ensures text.None? ==> r == Success(None)
    ensures text.Some? && r.Success? ==>
      r.value.Some? && r.value.value.Name() == Uppercase(ReplaceChar(text.value, ' ', '_'))
    ensures text.Some? ==>
      (r.Failure? <==> forall v: FoodType :: v.Name() != Uppercase(ReplaceChar(text.value, ' ', '_')))
  {
    ValueOfName();
    match text
    case None => Success(None)
    case Some(t) =>
      var tag := Uppercase(ReplaceChar(t, ' ', '_'));
      var v := FoodTypeValueOf(tag);
      if v.Some? then Success(v) else Failure(tag)
  }

  /** Upper-casing a title-case label gives back the constant name, once its spaces are
      underscores again. */
  lemma UppercaseUndoesPretty(name: string)
    requires IsConstantName(name)
    ensures Uppercase(ReplaceChar(PrettyEnumLabel(name), ' ', '_')) == name
  {
    var p := PrettyEnumLabel(name);
    var q := ReplaceChar(p, ' ', '_');
    var u := Uppercase(q);
    forall i | 0 <= i < |name|
      ensures u[i] == name[i]
    {
      PrettyEnumLabelAt(name, i);
      if name[i] == '_' {
        assert p[i] == ' ' && q[i] == '_';
      } else {
        assert 'A' <= name[i] <= 'Z';
        UpperOfLower(name[i]);
        assert p[i] != ' ' && q[i] == p[i];
      }
    }
  }

  /** Without underscores the label needs only upper-casing. */
  lemma UppercaseUndoesPrettyPlain(name: string)
    requires IsConstantName(name) && '_' !in name
    ensures Uppercase(PrettyEnumLabel(name)) == name
  {
    var p := PrettyEnumLabel(name);
    var u := Uppercase(p);
    forall i | 0 <= i < |name|
      ensures u[i] == name[i]
    {
      PrettyEnumLabelAt(name, i);
      assert name[i] in name;
      assert 'A' <= name[i] <= 'Z';
      UpperOfLower(name[i]);
    }
  }

  /** A chip labelled the way the cards print the constant decodes to that constant. */
  lemma SleepChipDecodes(v: SleepQuality)
    ensures SleepFromChip(Some(PrettyEnumLabel(v.Name()))) == Success(Some(v))
  {
    ValueOfName();
    SleepQualityNameShape(v);
    UppercaseUndoesPrettyPlain(v.Name());
  }

  lemma SocialChipDecodes(v: SocialActivity)
    ensures SocialFromChip(Some(PrettyEnumLabel(v.Name()))) == Success(Some(v))
  {
    ValueOfName();
    SocialActivityNameShape(v);
    UppercaseUndoesPrettyPlain(v.Name());
  }

  lemma HobbyChipDecodes(v: Hobby)
    ensures HobbyFromChip(Some(PrettyEnumLabel(v.Name()))) == Success(Some(v))
  {
    ValueOfName();
    HobbyNameShape(v);
    UppercaseUndoesPrettyPlain(v.Name());
  }

  /** Food labels have spaces where the names have underscores; they decode too. */
  lemma FoodChipDecodes(v: FoodType)
    ensures FoodFromChip(Some(PrettyEnumLabel(v.Name()))) == Success(Some(v))
  {
    ValueOfName();
    FoodTypeNameShape(v);
    UppercaseUndoesPretty(v.Name());
  }

  // ---------------------------------------------------------------------------
  // The form and the save decision
  // ---------------------------------------------------------------------------

  /** What the editor holds when Save is pressed: the selected mood (if any), the text
      of each selected chip, the note, photo and location, and the entry being edited
      (none when adding). */
  datatype MoodForm = MoodForm(
    selectedType: Option<MoodType>,
    sleepText: Option<string>,
    socialText: Option<string>,
    hobbyText: Option<string>,
    foodText: Option<string>,
    note: string,
    photoUri: Option<string>,
    location: Option<Location>,
    editing: Option<MoodModel>)

  /** The four decoded context attributes. */
  datatype Attributes = Attributes(
    sleep: Option<SleepQuality>,
    social: Option<SocialActivity>,
    hobby: Option<Hobby>,
    food: Option<FoodType>)

  /** The chips decoded in the source's order: the first chip that fails decides the
      failure. */
  function DecodeChips(form: MoodForm): (r: Result<Attributes, string>)
    ensures r.Success? <==>
      SleepFromChip(form.sleepText).Success? && SocialFromChip(form.socialText).Success?
      && HobbyFromChip(form.hobbyText).Success? && FoodFromChip(form.foodText).Success?
    ensures SleepFromChip(form.sleepText).Failure? ==> r == Failure(SleepFromChip(form.sleepText).error)
    ensures SleepFromChip(form.sleepText).Success? && SocialFromChip(form.socialText).Failure? ==>
      r == Failure(SocialFromChip(form.socialText).error)
    ensures (SleepFromChip(form.sleepText).Success? && SocialFromChip(form.socialText).Success?
             && HobbyFromChip(form.hobbyText).Failure?) ==>
      r == Failure(HobbyFromChip(form.hobbyText).error)
    ensures (SleepFromChip(form.sleepText).Success? && SocialFromChip(form.socialText).Success?
             && HobbyFromChip(form.hobbyText).Success? && FoodFromChip(form.foodText).Failure?) ==>
      r == Failure(FoodFromChip(form.foodText).error)
    ensures r.Success? ==>
      r.value == Attributes(SleepFromChip(form.sleepText).value, SocialFromChip(form.socialText).value,
                            HobbyFromChip(form.hobbyText).value, FoodFromChip(form.foodText).value)
  {
    var sleep := SleepFromChip(form.sleepText);
    if sleep.Failure? then Failure(sleep.error) else
    var social := SocialFromChip(form.socialText);
    if social.Failure? then Failure(social.error) else
    var hobby := HobbyFromChip(form.hobbyText);
    if hobby.Failure? then Failure(hobby.error) else
    var food := FoodFromChip(form.foodText);
    if food.Failure? then Failure(food.error) else
    Success(Attributes(sleep.value, social.value, hobby.value, food.value))
  }

  /** The record holds what the form says: its mood, note, photo and location, and the
      decoded chips. */
  ghost predicate Carries(m: MoodModel, form: MoodForm) {
    form.selectedType == Some(m.moodType)
    && m.note == form.note && m.photoUri == form.photoUri && m.location == form.location
    && DecodeChips(form) == Success(Attributes(m.sleep, m.social, m.hobby, m.food))
  }

  /** What pressing Save leads to. */
  datatype SavePlan =
    | NoMood
    | BadChip(tag: string)
    | CreateNew(record: MoodModel)
    | UpdateExisting(record: MoodModel)

  /** `onSaveClicked`'s decision. Without a mood it stops; a chip that does not decode
      stops it too; otherwise a new entry has no id yet and is stamped `now`, and an
      edited entry keeps its id and its original timestamp. Everything else comes from
      the form. */
  function PlanSave(form: MoodForm, now: string): (p: SavePlan)
    ensures p.NoMood? <==> form.selectedType.None?
    ensures p.BadChip? <==> form.selectedType.Some? && DecodeChips(form).Failure?
    ensures p.CreateNew? <==> form.selectedType.Some? && DecodeChips(form).Success? && form.editing.None?
    ensures p.CreateNew? ==> p.record.id == 0 && p.record.timestamp == now && Carries(p.record, form)
    ensures p.UpdateExisting? ==>
      form.editing.Some? && p.record.id == form.editing.value.id
      && p.record.timestamp == form.editing.value.timestamp && Carries(p.record, form)
  {
    if form.selectedType.None? then NoMood
    else
      var attrs := DecodeChips(form);
      if attrs.Failure? then BadChip(attrs.error)
      else
        var a := attrs.value;
        var t := form.selectedType.value;
        match form.editing
        case None =>
          CreateNew(MoodModel(0, t, form.note, a.sleep, a.social, a.hobby, a.food, now, form.photoUri, form.location))
        case Some(e) =>
          UpdateExisting(e.(moodType := t, note := form.note, sleep := a.sleep, social := a.social,
                            hobby := a.hobby, food := a.food, timestamp := e.timestamp,
                            photoUri := form.photoUri, location := form.location))
  }

  /** The text of the chip for an attribute, labelled as the cards print it; none when
      the attribute is missing. */
  function ChipText(name: Option<string>): Option<string> {
    if name.None? then None else Some(PrettyEnumLabel(name.value))
  }

  /** The form of an entry opened for editing and saved without changes, its chips
      labelled as the cards print them. */
  function UnchangedForm(e: MoodModel): MoodForm {
    MoodForm(Some(e.moodType), ChipText(SleepName(e)), ChipText(SocialName(e)), ChipText(HobbyName(e)),
             ChipText(FoodName(e)), e.note, e.photoUri, e.location, Some(e))
  }

  /** Saving an entry unchanged writes back the same record. */
  lemma ResaveIsIdentity(e: MoodModel, now: string)
    ensures PlanSave(UnchangedForm(e), now) == UpdateExisting(e)
  {
    UnchangedChipsDecode(e);
  }

  lemma UnchangedChipsDecode(e: MoodModel)
    ensures DecodeChips(UnchangedForm(e)) == Success(Attributes(e.sleep, e.social, e.hobby, e.food))
  {
    var form := UnchangedForm(e);
    if e.sleep.Some? { SleepChipDecodes(e.sleep.value); }
    if e.social.Some? { SocialChipDecodes(e.social.value); }
    if e.hobby.Some? { HobbyChipDecodes(e.hobby.value); }
    if e.food.Some? { FoodChipDecodes(e.food.value); }
    assert SleepFromChip(form.sleepText) == Success(e.sleep);
    assert SocialFromChip(form.socialText) == Success(e.social);
    assert HobbyFromChip(form.hobbyText) == Success(e.hobby);
    assert FoodFromChip(form.foodText) == Success(e.food);
  }

  // ---------------------------------------------------------------------------
  // Saving
  // ---------------------------------------------------------------------------

  /** What the user sees: a message and whether the editor closed with an OK result.
      A chip that does not decode ends the save with an exception instead. */
  datatype SaveOutcome = Answered(message: string, closedOk: bool) | Crashed(tag: string)

  /** `onSaveClicked`. The store changes only when the plan creates or updates, and
      then exactly as `create` or `update` promise. */
  method OnSaveClicked(store: MoodJSONStore, form: MoodForm, now: string) returns (outcome: SaveOutcome)
    requires store.Valid()
    modifies store, store.file
    ensures store.Valid()
    ensures PlanSave(form, now) == NoMood ==> outcome == Answered("Please select a mood!", false)
    ensures PlanSave(form, now).BadChip? ==> outcome == Crashed(PlanSave(form, now).tag)
    ensures PlanSave(form, now).CreateNew? ==>
      outcome == Answered("Mood added!", true)
      && store.moods == old(store.moods) + [Assigned(PlanSave(form, now).record, old(store.lastId))]
      && store.lastId == old(store.lastId) + 1 && store.file.writes == old(store.file.writes) + 1
    ensures PlanSave(form, now).UpdateExisting? ==>
      outcome == Answered("Mood updated!", true)
      && store.moods == ReplaceFirst(old(store.moods), PlanSave(form, now).record)
      && store.lastId == old(store.lastId)
    ensures PlanSave(form, now).UpdateExisting? && IndexOfId(old(store.moods), PlanSave(form, now).record.id) < 0 ==>
      store.file.contents == old(store.file.contents) && store.file.writes == old(store.file.writes)
    ensures PlanSave(form, now).UpdateExisting? && IndexOfId(old(store.moods), PlanSave(form, now).record.id) >= 0 ==>
      store.file.contents == Some(store.moods) && store.file.writes == old(store.file.writes) + 1
    ensures PlanSave(form, now).NoMood? || PlanSave(form, now).BadChip? ==>
      store.moods == old(store.moods) && store.lastId == old(store.lastId)
      && store.file.contents == old(store.file.contents) && store.file.writes == old(store.file.writes)
    ensures old(store.IdsWellFormed()) ==> store.IdsWellFormed()
  {
    if form.selectedType.None? {
      return Answered("Please select a mood!", false);
    }
    var sleep := SleepFromChip(form.sleepText);
    if sleep.Failure? {
      return Crashed(sleep.error);
    }
    var social := SocialFromChip(form.socialText);
    if social.Failure? {
      return Crashed(social.error);
    }
    var hobby := HobbyFromChip(form.hobbyText);
    if hobby.Failure? {
      return Crashed(hobby.error);
    }
    var food := FoodFromChip(form.foodText);
    if food.Failure? {
      return Crashed(food.error);
    }
    var selectedType := form.selectedType.value;
    if form.editing.None? {
      var newMood := MoodModel(0, selectedType, form.note, sleep.value, social.value, hobby.value,
                               food.value, now, form.photoUri, form.location);
      store.Create(newMood);
      outcome := Answered("Mood added!", true);
    } else {
      var editingMood := form.editing.value;
      var updated := editingMood.(moodType := selectedType, note := form.note, sleep := sleep.value,
                                  social := social.value, hobby := hobby.value, food := food.value,
                                  timestamp := editingMood.timestamp, photoUri := form.photoUri,
                                  location := form.location);
      store.Update(updated);
      outcome := Answered("Mood updated!", true);
    }
  }
}
