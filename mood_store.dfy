/** The repository layer: the `MoodStore` operations as `MoodJSONStore` implements
    them, an in-memory list mirrored to one JSON file, with ids handed out from a
    counter. */
module MoodStorage {
  import opened Wrappers
  import opened MoodRecords
  import opened Sequences

  // ---------------------------------------------------------------------------
  // Specification functions on the list of records
  // ---------------------------------------------------------------------------

  /** `firstOrNull { it.id == id }`: the earliest record carrying `id`. */
  function FirstWithId(ms: seq<MoodModel>, id: int): (r: Option<MoodModel>)
    ensures r == None <==> forall j :: 0 <= j < |ms| ==> ms[j].id != id
    ensures r.Some? ==> r.value.id == id && r.value in ms
    ensures r.Some? ==> exists k :: 0 <= k < |ms| && ms[k] == r.value && forall j :: 0 <= j < k ==> ms[j].id != id
  {
    if ms == [] then None
    else if ms[0].id == id then Some(ms[0])
    else
      var r := FirstWithId(ms[1..], id);
      assert r.Some? ==> exists k :: 0 <= k < |ms| && ms[k] == r.value && forall j :: 0 <= j < k ==> ms[j].id != id by {
        if r.Some? {
          var k :| 0 <= k < |ms| - 1 && ms[1..][k] == r.value && forall j :: 0 <= j < k ==> ms[1..][j].id != id;
          assert ms[k + 1] == r.value;
          assert forall j :: 0 <= j < k + 1 ==> ms[j].id != id by {
            forall j | 0 <= j < k + 1 ensures ms[j].id != id {
              if j > 0 { assert ms[j] == ms[1..][j - 1]; }
            }
          }
        }
      }
      r
  }

  /** `indexOfFirst { it.id == id }`: the earliest position carrying `id`, or -1. */
  function IndexOfId(ms: seq<MoodModel>, id: int): (k: int)
    ensures -1 <= k < |ms|
    ensures k == -1 <==> forall j :: 0 <= j < |ms| ==> ms[j].id != id
    ensures k >= 0 ==> ms[k].id == id && forall j :: 0 <= j < k ==> ms[j].id != id
  {
    if ms == [] then -1
    else if ms[0].id == id then 0
    else
      var k := IndexOfId(ms[1..], id);
      if k < 0 then -1 else k + 1
  }

  /** What `update` leaves in the list: the first record with the same id replaced. */
  function ReplaceFirst(ms: seq<MoodModel>, mood: MoodModel): (r: seq<MoodModel>)
    ensures |r| == |ms|
    ensures forall i :: 0 <= i < |ms| ==> r[i] == if i == IndexOfId(ms, mood.id) then mood else ms[i]
  {
    var k := IndexOfId(ms, mood.id);
    if k < 0 then ms else ms[k := mood]
  }

  /** `removeAll { it.id == id }`. */
  function RemoveId(ms: seq<MoodModel>, id: int): (r: seq<MoodModel>)
    ensures forall x :: x in r <==> x in ms && x.id != id
  {
    if ms == [] then []
    else if ms[0].id == id then RemoveId(ms[1..], id)
    else [ms[0]] + RemoveId(ms[1..], id)
  }

  /** `delete` drops every copy of a record with the id and keeps every copy of the others. */
  lemma {:induction false} RemoveIdCount(ms: seq<MoodModel>, id: int, x: MoodModel)
    ensures multiset(RemoveId(ms, id))[x] == if x.id != id then multiset(ms)[x] else 0
  {
    if ms != [] {
      RemoveIdCount(ms[1..], id, x);
      assert ms == [ms[0]] + ms[1..];
    }
  }

  /** The id a new record is stored under, given the counter before the call. */
  function Assigned(mood: MoodModel, lastId: int): (r: MoodModel)
    ensures r.id == if mood.id == 0 then lastId + 1 else mood.id
    ensures r.(id := mood.id) == mood
  {
    if mood.id == 0 then mood.(id := lastId + 1) else mood
  }

  predicate NoZeroIds(ms: seq<MoodModel>) {
    forall i :: 0 <= i < |ms| ==> ms[i].id != 0
  }

  /** Ids pairwise distinct and none above the counter: the uniqueness the store aims for. */
  predicate IdsDistinctBelow(ms: seq<MoodModel>, lastId: int) {
    (forall i, j :: 0 <= i < j < |ms| ==> ms[i].id != ms[j].id)
    && (forall i :: 0 <= i < |ms| ==> ms[i].id <= lastId)
  }

  /** The largest id in the list, or 0 for an empty list. */
  function MaxId(ms: seq<MoodModel>): (r: int)
    ensures forall i :: 0 <= i < |ms| ==> ms[i].id <= r
    ensures r == 0 || exists i :: 0 <= i < |ms| && ms[i].id == r
  {
    if ms == [] then 0
    else
      var r := MaxId(ms[..|ms| - 1]);
      assert forall i :: 0 <= i < |ms| - 1 ==> ms[..|ms| - 1][i] == ms[i];
      if ms[|ms| - 1].id > r then ms[|ms| - 1].id else r
  }

  // ---------------------------------------------------------------------------
  // Loading: the backfill of missing ids
  // ---------------------------------------------------------------------------

  /** State of the start-up pass: the records seen so far, the counter, and whether
      any record was given an id. */
  datatype Backfilled = Backfilled(moods: seq<MoodModel>, lastId: int, changed: bool)

  /** One iteration of the start-up pass over a record. */
  function BackfillStep(b: Backfilled, mood: MoodModel): Backfilled {
    if mood.id == 0 then Backfilled(b.moods + [mood.(id := b.lastId + 1)], b.lastId + 1, true)
    else if mood.id > b.lastId then Backfilled(b.moods + [mood], mood.id, b.changed)
    else Backfilled(b.moods + [mood], b.lastId, b.changed)
  }

  /** The start-up pass over the loaded list, from a counter of 0. */
  function Backfill(loaded: seq<MoodModel>): (b: Backfilled)
    ensures |b.moods| == |loaded|
  {
    if loaded == [] then Backfilled([], 0, false)
    else BackfillStep(Backfill(loaded[..|loaded| - 1]), loaded[|loaded| - 1])
  }

  /** The pass only ever touches ids: a record that had one is kept as it was,
      and every other field of every record is kept. */
  lemma {:induction false} BackfillKeepsRecords(loaded: seq<MoodModel>)
    ensures var b := Backfill(loaded);
      forall i :: 0 <= i < |loaded| ==>
        b.moods[i] == loaded[i].(id := b.moods[i].id) && (loaded[i].id != 0 ==> b.moods[i] == loaded[i])
  {
    if loaded != [] {
      var prefix := loaded[..|loaded| - 1];
      BackfillKeepsRecords(prefix);
      assert forall i :: 0 <= i < |prefix| ==> prefix[i] == loaded[i];
    }
  }

  /** After the pass no record lacks an id, and the counter is at least every id. */
  lemma {:induction false} BackfillAssignsIds(loaded: seq<MoodModel>)
    ensures var b := Backfill(loaded);
      b.lastId >= 0 && NoZeroIds(b.moods) && forall i :: 0 <= i < |b.moods| ==> b.moods[i].id <= b.lastId
  {
    if loaded != [] {
      BackfillAssignsIds(loaded[..|loaded| - 1]);
    }
  }

  /** The file is rewritten exactly when some loaded record had no id. */
  lemma {:induction false} BackfillChangedIffMissing(loaded: seq<MoodModel>)
    ensures Backfill(loaded).changed <==> exists i :: 0 <= i < |loaded| && loaded[i].id == 0
  {
    if loaded != [] {
      var prefix := loaded[..|loaded| - 1];
      BackfillChangedIffMissing(prefix);
      assert forall i :: 0 <= i < |prefix| ==> prefix[i] == loaded[i];
    }
  }

  /** A list that already has all its ids loads unchanged, with the counter at its largest id. */
  lemma {:induction false} BackfillIdentity(loaded: seq<MoodModel>)
    requires NoZeroIds(loaded)
    ensures Backfill(loaded) == Backfilled(loaded, if MaxId(loaded) > 0 then MaxId(loaded) else 0, false)
  {
    if loaded != [] {
      var prefix := loaded[..|loaded| - 1];
      BackfillIdentity(prefix);
      assert prefix + [loaded[|loaded| - 1]] == loaded;
    }
  }

  /** When every record without an id comes after all records with one, and the
      given ids are distinct, the pass yields distinct ids. */
  lemma {:induction false} BackfillDistinct(loaded: seq<MoodModel>)
    requires forall i, j :: 0 <= i < j < |loaded| && loaded[i].id != 0 && loaded[j].id != 0 ==> loaded[i].id != loaded[j].id
    requires forall i, j :: 0 <= i < j < |loaded| && loaded[i].id == 0 ==> loaded[j].id == 0
    ensures IdsDistinctBelow(Backfill(loaded).moods, Backfill(loaded).lastId)
  {
    if loaded != [] {
      var n := |loaded| - 1;
      var prefix := loaded[..n];
      assert forall i :: 0 <= i < n ==> prefix[i] == loaded[i];
      BackfillDistinct(prefix);
      BackfillAssignsIds(prefix);
      var p := Backfill(prefix);
      if loaded[n].id != 0 {
        BackfillKeepsRecords(prefix);
        assert forall i :: 0 <= i < n ==> p.moods[i] == loaded[i];
      }
    }
  }

  /** Without that ordering the pass can hand out an id that is already taken:
      a record without an id followed by one whose id is 1 ends with two records of id 1. */
  lemma BackfillCanDuplicate(mood: MoodModel)
    ensures var b := Backfill([mood.(id := 0), mood.(id := 1)]);
      b.moods == [mood.(id := 1), mood.(id := 1)] && b.lastId == 1 && b.changed
  {
    var loaded := [mood.(id := 0), mood.(id := 1)];
    assert loaded[..1] == [mood.(id := 0)];
    assert loaded[..1][..0] == [];
    assert Backfill(loaded[..1]) == Backfilled([mood.(id := 1)], 1, true);
  }

  // ---------------------------------------------------------------------------
  // What each operation does to the list
  // ---------------------------------------------------------------------------

  /** `create` of a record without an id keeps ids distinct and bounded, gives the
      record an id no other record has, and makes it findable under that id. */
  lemma CreatePreservesIds(ms: seq<MoodModel>, lastId: int, mood: MoodModel)
    requires IdsDistinctBelow(ms, lastId) && mood.id == 0
    ensures var created := Assigned(mood, lastId);
      IdsDistinctBelow(ms + [created], lastId + 1)
      && (forall i :: 0 <= i < |ms| ==> ms[i].id != created.id)
      && FirstWithId(ms + [created], created.id) == Some(created)
  {
    var created := Assigned(mood, lastId);
    var r := FirstWithId(ms + [created], created.id);
    var k :| 0 <= k < |ms| + 1 && (ms + [created])[k] == r.value && forall j :: 0 <= j < k ==> (ms + [created])[j].id != created.id;
    assert k == |ms|;
  }

  /** `update` changes no id and no record whose id differs, and leaves the list
      as it was when no record matches. */
  lemma ReplaceFirstKeepsIds(ms: seq<MoodModel>, mood: MoodModel)
    ensures |ReplaceFirst(ms, mood)| == |ms|
    ensures forall i :: 0 <= i < |ms| ==> ReplaceFirst(ms, mood)[i].id == ms[i].id
    ensures forall i :: 0 <= i < |ms| && ms[i].id != mood.id ==> ReplaceFirst(ms, mood)[i] == ms[i]
    ensures (forall i :: 0 <= i < |ms| ==> ms[i].id != mood.id) ==> ReplaceFirst(ms, mood) == ms
  {
  }

  /** After `update`, looking the id up returns the new version exactly when some record matched. */
  lemma ReplaceFirstThenFind(ms: seq<MoodModel>, mood: MoodModel)
    ensures FirstWithId(ReplaceFirst(ms, mood), mood.id) == (if IndexOfId(ms, mood.id) >= 0 then Some(mood) else None)
  {
    var k := IndexOfId(ms, mood.id);
    if k >= 0 {
      var r := ReplaceFirst(ms, mood);
      assert r[k] == mood;
      var f := FirstWithId(r, mood.id);
      var j :| 0 <= j < |r| && r[j] == f.value && forall i :: 0 <= i < j ==> r[i].id != mood.id;
      assert r[k].id == mood.id;
      assert j == k;
    }
  }

  /** With distinct ids, `update` swaps exactly one record: the list then holds the new
      version and every record with another id, and nothing else. */
  lemma ReplaceFirstContents(ms: seq<MoodModel>, lastId: int, mood: MoodModel)
    requires IdsDistinctBelow(ms, lastId) && IndexOfId(ms, mood.id) >= 0
    ensures IdsDistinctBelow(ReplaceFirst(ms, mood), lastId)
    ensures forall x :: x in ReplaceFirst(ms, mood) <==> x == mood || (x in ms && x.id != mood.id)
  {
    var k := IndexOfId(ms, mood.id);
    var r := ReplaceFirst(ms, mood);
    forall x ensures x in r <==> x == mood || (x in ms && x.id != mood.id) {
      if x in r {
        var i :| 0 <= i < |r| && r[i] == x;
        if i != k { assert ms[i].id != ms[k].id; }
      }
      if x in ms && x.id != mood.id {
        var i :| 0 <= i < |ms| && ms[i] == x;
        assert r[i] == x;
      }
      if x == mood { assert r[k] == x; }
    }
  }

  /** `delete` keeps the other records in their order and leaves none with the id. */
  lemma {:induction false} RemoveIdSubsequence(ms: seq<MoodModel>, id: int)
    ensures IsSubsequence(RemoveId(ms, id), ms)
    ensures FirstWithId(RemoveId(ms, id), id) == None
  {
    if ms != [] {
      RemoveIdSubsequence(ms[1..], id);
      var rest := RemoveId(ms[1..], id);
      if ms[0].id != id {
        assert ([ms[0]] + rest)[1..] == rest;
      }
    }
  }

  /** Deleting an id twice is deleting it once; deleting an absent id changes nothing. */
  lemma {:induction false} RemoveIdIdempotent(ms: seq<MoodModel>, id: int)
    ensures RemoveId(RemoveId(ms, id), id) == RemoveId(ms, id)
    ensures (forall i :: 0 <= i < |ms| ==> ms[i].id != id) ==> RemoveId(ms, id) == ms
  {
    if ms != [] {
      RemoveIdIdempotent(ms[1..], id);
      if ms[0].id != id {
        assert ms == [ms[0]] + ms[1..];
        assert (forall i :: 0 <= i < |ms| ==> ms[i].id != id) ==> (forall i :: 0 <= i < |ms[1..]| ==> ms[1..][i].id != id);
      }
    }
  }

  /** `delete` keeps ids distinct and bounded. */
  lemma {:induction false} RemoveIdPreservesIds(ms: seq<MoodModel>, lastId: int, id: int)
    requires IdsDistinctBelow(ms, lastId)
    ensures IdsDistinctBelow(RemoveId(ms, id), lastId)
  {
    if ms != [] {
      assert IdsDistinctBelow(ms[1..], lastId);
      RemoveIdPreservesIds(ms[1..], lastId, id);
      var rest := RemoveId(ms[1..], id);
      if ms[0].id != id {
        forall i | 0 <= i < |rest| ensures rest[i].id != ms[0].id {
          assert rest[i] in ms[1..];
        }
        var r := [ms[0]] + rest;
        assert RemoveId(ms, id) == r;
        forall i, j | 0 <= i < j < |r| ensures r[i].id != r[j].id {
          assert r[j] == rest[j - 1];
          if i > 0 {
            assert r[i] == rest[i - 1];
          }
        }
        forall i | 0 <= i < |r| ensures r[i].id <= lastId {
          if i > 0 {
            assert r[i] == rest[i - 1];
          }
        }
      }
    }
  }

  /** `delete` keeps every id non-zero. */
  lemma RemoveIdKeepsNoZeroIds(ms: seq<MoodModel>, id: int)
    requires NoZeroIds(ms)
    ensures NoZeroIds(RemoveId(ms, id))
  {
    var r := RemoveId(ms, id);
    forall i | 0 <= i < |r| ensures r[i].id != 0 {
      assert r[i] in ms;
    }
  }

  // ---------------------------------------------------------------------------
  // The JSON file and the store
  // ---------------------------------------------------------------------------

  /** The file moods.json in the app's private storage: `None` while it does not
      exist, otherwise the records last written to it. */
  class MoodFile {
    var contents: Option<seq<MoodModel>>
    /** How many times the file has been written. */
    ghost var writes: nat

    constructor (initial: Option<seq<MoodModel>>)
      ensures contents == initial && writes == 0
    {
      contents := initial;
      writes := 0;
    }
  }

  /** The JSON-backed store: records in memory mirrored to `file`, and the counter
      `lastId` from which new ids are drawn. */
  class MoodJSONStore {
    var moods: seq<MoodModel>
    var lastId: int
    const file: MoodFile

    /** The file holds exactly the list in memory (or does not exist while the list
        is empty), the counter is non-negative and every record has an id. */
    ghost predicate Valid()
      reads this, file
    {
      (file.contents == Some(moods) || (file.contents == None && moods == []))
      && lastId >= 0 && NoZeroIds(moods)
    }

    /** Ids unique and none above the counter. */
    ghost predicate IdsWellFormed()
      reads this
    {
      IdsDistinctBelow(moods, lastId)
    }

    /** `init`: load the file if it exists, then give every record without an id
        the next one and track the largest id seen; rewrite the file if anything changed. */
    constructor (file: MoodFile)
      modifies file
      ensures this.file == file && Valid()
      ensures old(file.contents) == None ==> moods == [] && lastId == 0 && unchanged(file)
      ensures old(file.contents).Some? ==>
        var b := Backfill(old(file.contents).value);
        moods == b.moods && lastId == b.lastId && file.contents == Some(moods)
        && file.writes == old(file.writes) + (if b.changed then 1 else 0)
    {
      this.file := file;
      moods := [];
      lastId := 0;
      new;
      if file.contents.Some? {
        var loaded := file.contents.value;
        moods := loaded;
        var changed := false;
        var i := 0;
        while i < |moods|
          invariant 0 <= i <= |moods| == |loaded|
          invariant moods[i..] == loaded[i..]
          invariant Backfill(loaded[..i]) == Backfilled(moods[..i], lastId, changed)
          invariant file.contents == old(file.contents) && file.writes == old(file.writes)
        {
          ghost var before := moods;
          var mood := moods[i];
          assert mood == loaded[i] by { assert moods[i..][0] == loaded[i..][0]; }
          if mood.id == 0 {
            var id := NextId();
            moods := moods[i := mood.(id := id)];
            changed := true;
          } else if mood.id > lastId {
            lastId := mood.id;
          }
          assert loaded[..i + 1][..i] == loaded[..i];
          assert moods[..i + 1] == moods[..i] + [moods[i]];
          assert moods[i + 1..] == before[i + 1..];
          i := i + 1;
        }
        assert moods[..i] == moods && loaded[..i] == loaded;
        BackfillAssignsIds(loaded);
        if changed {
          Serialize();
        } else {
          BackfillChangedIffMissing(loaded);
          BackfillKeepsRecords(loaded);
          assert moods == loaded;
        }
      }
    }

    /** `nextId`: pre-increment of the counter. */
    method NextId() returns (id: int)
      modifies this`lastId
      ensures lastId == old(lastId) + 1 && id == lastId
    {
      lastId := lastId + 1;
      id := lastId;
    }

    /** `serialize`: the file now holds the list in memory. */
    method Serialize()
      modifies file
      ensures file.contents == Some(moods) && file.writes == old(file.writes) + 1
    {
      file.contents := Some(moods);
      file.writes := file.writes + 1;
    }

    method FindAll() returns (r: seq<MoodModel>)
      ensures r == moods
    {
      r := moods;
    }

    /** `findById`: the first record with the id, `None` when there is none. */
    method FindById(id: int) returns (r: Option<MoodModel>)
      ensures r == FirstWithId(moods, id)
      ensures r.Some? ==> r.value in moods && r.value.id == id
    {
      r := FirstWithId(moods, id);
    }

    /** `create`: a record without an id gets the next one; the record is appended
        and the file rewritten. */
    method Create(mood: MoodModel)
      requires Valid()
      modifies this, file
      ensures Valid()
      ensures lastId == (if mood.id == 0 then old(lastId) + 1 else old(lastId))
      ensures moods == old(moods) + [Assigned(mood, old(lastId))]
      ensures file.writes == old(file.writes) + 1
      ensures old(IdsWellFormed()) && mood.id == 0 ==> IdsWellFormed()
    {
      var created := mood;
      if mood.id == 0 {
        var id := NextId();
        created := mood.(id := id);
      }
      moods := moods + [created];
      Serialize();
      if old(IdsWellFormed()) && mood.id == 0 {
        CreatePreservesIds(old(moods), old(lastId), mood);
      }
    }

    /** `update`: the first record with the same id is replaced and the file rewritten;
        with no such record nothing happens. */
    method Update(mood: MoodModel)
      requires Valid()
      modifies this, file
      ensures Valid()
      ensures moods == ReplaceFirst(old(moods), mood) && lastId == old(lastId)
      ensures IndexOfId(old(moods), mood.id) < 0 ==> unchanged(file)
      ensures IndexOfId(old(moods), mood.id) >= 0 ==> file.writes == old(file.writes) + 1
      ensures old(IdsWellFormed()) ==> IdsWellFormed()
    {
      var index := IndexOfId(moods, mood.id);
      if index >= 0 {
        moods := moods[index := mood];
        Serialize();
        ReplaceFirstKeepsIds(old(moods), mood);
        if old(IdsWellFormed()) {
          ReplaceFirstContents(old(moods), lastId, mood);
        }
      }
    }

    /** `delete`: every record with the id is removed and the file rewritten. */
    method Delete(mood: MoodModel)
      requires Valid()
      modifies this, file
      ensures Valid()
      ensures moods == RemoveId(old(moods), mood.id) && lastId == old(lastId)
      ensures file.writes == old(file.writes) + 1
      ensures old(IdsWellFormed()) ==> IdsWellFormed()
    {
      if IdsDistinctBelow(moods, lastId) {
        RemoveIdPreservesIds(moods, lastId, mood.id);
      }
      RemoveIdKeepsNoZeroIds(moods, mood.id);
      moods := RemoveId(moods, mood.id);
      Serialize();
    }
  }

  /** Opening a second store over the file a valid store has written: the same
      records come back, the file is not rewritten, and the counter restarts at the
      largest stored id. */
  method Reopen(store: MoodJSONStore) returns (reopened: MoodJSONStore)
    requires store.Valid()
    modifies store.file
    ensures fresh(reopened) && reopened.file == store.file && reopened.Valid()
    ensures reopened.moods == store.moods
    ensures store.file.contents == old(store.file.contents) && store.file.writes == old(store.file.writes)
    ensures reopened.lastId == (if MaxId(store.moods) > 0 then MaxId(store.moods) else 0)
    ensures store.IdsWellFormed() ==> reopened.IdsWellFormed()
  {
    if store.file.contents.Some? {
      BackfillIdentity(store.moods);
    }
    reopened := new MoodJSONStore(store.file);
  }

  /** The counter is not stored, so an id freed by deleting the newest record is
      handed out again once the store is reopened. */
  method IdReusedAfterReopen(mood: MoodModel) returns (firstId: int, secondId: int)
    requires mood.id == 0
    ensures firstId == 1 && secondId == 1
  {
    var file := new MoodFile(None);
    var store := new MoodJSONStore(file);
    store.Create(mood);
    firstId := store.moods[0].id;
    store.Delete(store.moods[0]);
    assert store.moods == [];
    var reopened := new MoodJSONStore(file);
    reopened.Create(mood);
    secondId := reopened.moods[0].id;
  }
}
