/** `CoreDataManager`: the voice-note store. The managed-object context is a table of
    `VoiceNoteEntity` records, the documents directory a set of file names, and
    `JSONEncoder`'s output for the waveform levels a JSON token stream. */
module CoreDataStore {
  import opened Options

  /* ---- The waveform levels as JSON ---- */

  /** The tokens of a JSON array of numbers. */
  datatype JsonToken = BeginArray | EndArray | ValueSeparator | Number(value: real)

  /** The `Data` that `JSONEncoder().encode(levels)` writes: `[`, the numbers separated by
      commas, `]`. */
  function EncodeLevels(levels: seq<real>): (d: seq<JsonToken>)
    ensures |d| >= 2 && d[0] == BeginArray && d[|d| - 1] == EndArray
  {
    [BeginArray] + EncodeElements(levels) + [EndArray]
  }

  function EncodeElements(levels: seq<real>): (d: seq<JsonToken>)
    ensures BeginArray !in d && EndArray !in d
    ensures |d| == if levels == [] then 0 else 2 * |levels| - 1
  {
    if levels == [] then []
    else if |levels| == 1 then [Number(levels[0])]
    else [Number(levels[0]), ValueSeparator] + EncodeElements(levels[1..])
  }

  /** `JSONDecoder().decode([Float].self, from: data)`: `None` for data that is not a JSON
      array of numbers. */
  function DecodeLevels(d: seq<JsonToken>): (r: Option<seq<real>>)
    ensures r.Some? ==> EncodeLevels(r.value) == d
  {
    if |d| >= 2 && d[0] == BeginArray && d[|d| - 1] == EndArray then
      var inner := d[1..|d| - 1];
      var r := DecodeElements(inner);
      if r.Some? then
        ElementsCanonical(inner, r.value);
        assert d == [BeginArray] + inner + [EndArray];
        r
      else r
    else None
  }

  function DecodeElements(d: seq<JsonToken>): Option<seq<real>>
  {
    if d == [] then Some([])
    else if !d[0].Number? then None
    else if |d| == 1 then Some([d[0].value])
    else if d[1] != ValueSeparator || |d| == 2 then None
    else match DecodeElements(d[2..])
      case None => None
      case Some(rest) => Some([d[0].value] + rest)
  }

  lemma {:induction false} ElementsRoundTrip(levels: seq<real>)
    ensures DecodeElements(EncodeElements(levels)) == Some(levels)
  {
    if |levels| == 1 {
      assert [levels[0]] == levels;
    } else if |levels| > 1 {
      var d := EncodeElements(levels);
      assert d[2..] == EncodeElements(levels[1..]);
      ElementsRoundTrip(levels[1..]);
      assert [levels[0]] + levels[1..] == levels;
    }
  }

  /** The stored waveform data decodes to exactly the levels that were saved. */
  lemma LevelsRoundTrip(levels: seq<real>)
    ensures DecodeLevels(EncodeLevels(levels)) == Some(levels)
  {
    var d := EncodeLevels(levels);
    assert d[1..|d| - 1] == EncodeElements(levels);
    ElementsRoundTrip(levels);
  }

  lemma {:induction false} ElementsCanonical(d: seq<JsonToken>, levels: seq<real>)
    requires DecodeElements(d) == Some(levels)
    ensures EncodeElements(levels) == d
  {
    if |d| > 2 && d[0].Number? && d[1] == ValueSeparator {
      var rest :| DecodeElements(d[2..]) == Some(rest);
      ElementsCanonical(d[2..], rest);
      assert levels == [d[0].value] + rest;
      assert levels[1..] == rest;
      assert d == [d[0], d[1]] + d[2..];
    }
  }

  /** Conversely, data that decodes was written by the encoder from the decoded levels. */
  lemma LevelsCanonical(d: seq<JsonToken>, levels: seq<real>)
    requires DecodeLevels(d) == Some(levels)
    ensures EncodeLevels(levels) == d
  {
    ElementsCanonical(d[1..|d| - 1], levels);
    assert d == [d[0]] + d[1..|d| - 1] + [d[|d| - 1]];
  }

  /* ---- Records ---- */

  /** A `VoiceNoteEntity` managed object. `objectId` stands for the object's identity in
      the context (its `NSManagedObjectID`); the other fields are the entity's optional
      attributes. `title` holds the folder the note is filed under. */
  datatype VoiceNoteEntity = VoiceNoteEntity(
    objectId: nat,
    id: Option<string>,
    audioFileName: Option<string>,
    durationText: Option<string>,
    createdAt: real,
    title: Option<string>,
    noteDescription: Option<string>,
    waveformData: Option<seq<JsonToken>>)

  function ObjectIds(s: seq<VoiceNoteEntity>): set<nat> {
    set i | 0 <= i < |s| :: s[i].objectId
  }

  predicate DistinctObjects(s: seq<VoiceNoteEntity>) {
    forall i, j :: 0 <= i < j < |s| ==> s[i].objectId != s[j].objectId
  }

  /** The records of `s` other than object `oid`, in their order. */
  function RemoveObject(s: seq<VoiceNoteEntity>, oid: nat): (r: seq<VoiceNoteEntity>)
    ensures forall x :: x in r <==> x in s && x.objectId != oid
    ensures |r| <= |s|
    ensures oid !in ObjectIds(s) ==> r == s
  {
    if s == [] then []
    else (if s[0].objectId == oid then [] else [s[0]]) + RemoveObject(s[1..], oid)
  }

  /** `s` with the record of object `oid` replaced by `f(record)`; no other record changes. */
  function SetTitleOf(s: seq<VoiceNoteEntity>, oid: nat, title: string): (r: seq<VoiceNoteEntity>)
    ensures |r| == |s|
    ensures forall i :: 0 <= i < |s| ==>
      r[i] == if s[i].objectId == oid then s[i].(title := Some(title)) else s[i]
  {
    if s == [] then []
    else [if s[0].objectId == oid then s[0].(title := Some(title)) else s[0]]
         + SetTitleOf(s[1..], oid, title)
  }

  function SetDescriptionOf(s: seq<VoiceNoteEntity>, oid: nat, text: string): (r: seq<VoiceNoteEntity>)
    ensures |r| == |s|
    ensures forall i :: 0 <= i < |s| ==>
      r[i] == if s[i].objectId == oid then s[i].(noteDescription := Some(text)) else s[i]
  {
    if s == [] then []
    else [if s[0].objectId == oid then s[0].(noteDescription := Some(text)) else s[0]]
         + SetDescriptionOf(s[1..], oid, text)
  }

  /* ---- The fetch order ---- */

  /** Sorted by `createdAt`, newest first. */
  predicate NewestFirst(s: seq<VoiceNoteEntity>) {
    forall i, j :: 0 <= i < j < |s| ==> s[i].createdAt >= s[j].createdAt
  }

  /** Puts `x` in front of the first record that is not newer than it. */
  function Insert(x: VoiceNoteEntity, s: seq<VoiceNoteEntity>): (r: seq<VoiceNoteEntity>)
    ensures multiset(r) == multiset(s) + multiset{x}
  {
    if s == [] then [x]
    else if s[0].createdAt <= x.createdAt then [x] + s
    else
      assert s == [s[0]] + s[1..];
      [s[0]] + Insert(x, s[1..])
  }

  predicate NoNewerThan(s: seq<VoiceNoteEntity>, t: real) {
    forall k :: 0 <= k < |s| ==> s[k].createdAt <= t
  }

  lemma {:induction false} InsertBounded(x: VoiceNoteEntity, s: seq<VoiceNoteEntity>, t: real)
    requires NoNewerThan(s, t) && x.createdAt <= t
    ensures NoNewerThan(Insert(x, s), t)
  {
    if s != [] && s[0].createdAt > x.createdAt {
      InsertBounded(x, s[1..], t);
    }
  }

  lemma {:induction false} InsertSorted(x: VoiceNoteEntity, s: seq<VoiceNoteEntity>)
    requires NewestFirst(s)
    ensures NewestFirst(Insert(x, s))
  {
    if s != [] {
      if s[0].createdAt <= x.createdAt {
        assert NoNewerThan(s, s[0].createdAt);
      } else {
        InsertSorted(x, s[1..]);
        assert NoNewerThan(s[1..], s[0].createdAt);
        InsertBounded(x, s[1..], s[0].createdAt);
      }
    }
  }

  /** The order `NSSortDescriptor(key: "createdAt", ascending: false)` asks for: every
      record, newest first. Ties may come in any order. */
  function SortNewestFirst(s: seq<VoiceNoteEntity>): (r: seq<VoiceNoteEntity>)
    ensures NewestFirst(r)
    ensures multiset(r) == multiset(s)
  {
    if s == [] then []
    else
      assert s == [s[0]] + s[1..];
      InsertSorted(s[0], SortNewestFirst(s[1..]));
      Insert(s[0], SortNewestFirst(s[1..]))
  }

  /* ---- The store ---- */

  class CoreDataManager {
    /** The voice-note records registered in the context, in insertion order. */
    var notes: seq<VoiceNoteEntity>
    /** The audio files in the documents directory. */
    var files: set<string>
    /** `context.hasChanges`: there are changes not yet saved. */
    var hasChanges: bool
    /** The records the persistent store holds since the last successful save. */
    var persisted: seq<VoiceNoteEntity>
    /** The object identity the next inserted record receives. */
    var nextObjectId: nat

    ghost predicate Valid()
      reads this
    {
      && DistinctObjects(notes)
      && (forall i :: 0 <= i < |notes| ==> notes[i].objectId < nextObjectId)
    }

    /** A store opened on the records already saved and the files already on disk. */
    constructor (stored: seq<VoiceNoteEntity>, documents: set<string>, nextId: nat)
      requires DistinctObjects(stored)
      requires forall i :: 0 <= i < |stored| ==> stored[i].objectId < nextId
      ensures Valid()
      ensures notes == stored && persisted == stored && files == documents
      ensures !hasChanges && nextObjectId == nextId
    {
      notes := stored;
      persisted := stored;
      files := documents;
      hasChanges := false;
      nextObjectId := nextId;
    }

    /** The record of object `oid`, if the context holds it. */
    function Lookup(oid: nat): (r: Option<VoiceNoteEntity>)
      reads this
      ensures r.Some? ==> r.value in notes && r.value.objectId == oid
      ensures r.None? ==> oid !in ObjectIds(notes)
    {
      LookupIn(notes, oid)
    }

    /** `saveContext()`: commits only when there are changes; a failed save is swallowed and
        leaves the changes pending. */
    method SaveContext(saveOk: bool)
      modifies this`hasChanges, this`persisted
      ensures SaveOutcome(old(hasChanges), saveOk, notes, old(persisted), hasChanges, persisted)
    {
      if hasChanges {
        if saveOk {
          persisted := notes;
          hasChanges := false;
        }
      }
    }

    /** Inserts a new object into the context and returns it with its attributes unset. */
    method InsertObject(createdAt: real) returns (note: VoiceNoteEntity)
      requires Valid()
      modifies this`nextObjectId
      ensures Valid()
      ensures note.objectId == old(nextObjectId) && nextObjectId == old(nextObjectId) + 1
      ensures note == VoiceNoteEntity(note.objectId, None, None, None, createdAt, None, None, None)
    {
      note := VoiceNoteEntity(nextObjectId, None, None, None, createdAt, None, None, None);
      nextObjectId := nextObjectId + 1;
    }

    /** `saveVoiceNote(fileName:duration:levels:category:description:)`, at time `now`:
        one new record filed under `category`, with no `id`, then a save. */
    method SaveVoiceNoteWithMetadata(fileName: string, duration: string, levels: seq<real>,
                                     category: string, description: string, now: real, saveOk: bool)
      requires Valid()
      modifies this
      ensures Valid()
      ensures notes == old(notes) + [VoiceNoteEntity(old(nextObjectId), None, Some(fileName),
        Some(duration), now, Some(category), Some(description), Some(EncodeLevels(levels)))]
      ensures files == old(files) && nextObjectId == old(nextObjectId) + 1
      ensures saveOk ==> !hasChanges && persisted == notes
      ensures !saveOk ==> hasChanges && persisted == old(persisted)
    {
      var note := InsertObject(now);
      note := note.(audioFileName := Some(fileName));
      note := note.(durationText := Some(duration));
      note := note.(title := Some(category));
      note := note.(noteDescription := Some(description));
      note := note.(waveformData := Some(EncodeLevels(levels)));
      notes := notes + [note];
      hasChanges := true;
      SaveContext(saveOk);
    }

    /** `saveVoiceNote(fileName:duration:levels:)`, at time `now`: one new record whose
        `id` is the fresh UUID string `freshId`, with no title or description. */
    method SaveVoiceNote(fileName: string, duration: string, levels: seq<real>,
                         now: real, freshId: string, saveOk: bool)
      requires Valid()
      requires forall i :: 0 <= i < |notes| ==> notes[i].id != Some(freshId)
      modifies this
      ensures Valid()
      ensures notes == old(notes) + [VoiceNoteEntity(old(nextObjectId), Some(freshId), Some(fileName),
        Some(duration), now, None, None, Some(EncodeLevels(levels)))]
      ensures forall i :: 0 <= i < |notes| - 1 ==> notes[i].id != notes[|notes| - 1].id
      ensures files == old(files) && nextObjectId == old(nextObjectId) + 1
      ensures saveOk ==> !hasChanges && persisted == notes
      ensures !saveOk ==> hasChanges && persisted == old(persisted)
    {
      var note := InsertObject(now);
      note := note.(id := Some(freshId));
      note := note.(audioFileName := Some(fileName));
      note := note.(durationText := Some(duration));
      note := note.(waveformData := Some(EncodeLevels(levels)));
      notes := notes + [note];
      hasChanges := true;
      SaveContext(saveOk);
    }

    /** `deleteVoiceNote(note:)`: removes the note's audio file if it names one (a failed
        removal, `removeOk == false`, is ignored), deletes the record, then saves. `note`
        stands for a managed object, whose attributes are those of its record while the
        context holds one, so the file name is read from that record. */
    method DeleteVoiceNote(note: VoiceNoteEntity, removeOk: bool, saveOk: bool)
      requires Valid()
      modifies this`files, this`notes, this`hasChanges, this`persisted
      ensures Valid()
      ensures notes == RemoveObject(old(notes), note.objectId)
      ensures var fileName := FileNameIn(old(notes), note);
        files == if fileName.Some? && removeOk then old(files) - {fileName.value} else old(files)
      ensures nextObjectId == old(nextObjectId)
      ensures SaveOutcome(old(hasChanges) || note.objectId in ObjectIds(old(notes)), saveOk,
                          notes, old(persisted), hasChanges, persisted)
    {
      var fileName := FileNameIn(notes, note);
      if fileName.Some? && removeOk {
        files := files - {fileName.value};
      }
      DeleteObject(note.objectId);
      SaveContext(saveOk);
    }

    /** `context.delete(_:)`: drops the record of object `oid` from the context; the
        context has changes afterwards if it had some or if it held that record. */
    method DeleteObject(oid: nat)
      requires Valid()
      modifies this`notes, this`hasChanges
      ensures Valid()
      ensures notes == RemoveObject(old(notes), oid)
      ensures hasChanges == (old(hasChanges) || oid in ObjectIds(old(notes)))
    {
      var present := oid in ObjectIds(notes);
      RemoveKeepsValid(notes, oid, nextObjectId);
      notes := RemoveObject(notes, oid);
      hasChanges := hasChanges || present;
    }

    /** `fetchAllNotes()`: every record of the context, newest first; a failed fetch
        (`fetchOk == false`) yields the empty list. */
    method FetchAllNotes(fetchOk: bool) returns (r: seq<VoiceNoteEntity>)
      ensures fetchOk ==> NewestFirst(r) && multiset(r) == multiset(notes)
      ensures !fetchOk ==> r == []
    {
      if fetchOk {
        r := SortNewestFirst(notes);
      } else {
        r := [];
      }
    }

    /** Assigning the `title` attribute of a managed object in the context. */
    method SetTitle(oid: nat, title: string)
      requires Valid()
      modifies this`notes, this`hasChanges
      ensures Valid()
      ensures notes == SetTitleOf(old(notes), oid, title)
      ensures hasChanges == (old(hasChanges) || oid in ObjectIds(old(notes)))
    {
      hasChanges := hasChanges || oid in ObjectIds(notes);
      notes := SetTitleOf(notes, oid, title);
      assert forall i :: 0 <= i < |notes| ==> notes[i].objectId == old(notes)[i].objectId;
    }

    /** Assigning the `noteDescription` attribute of a managed object in the context. */
    method SetNoteDescription(oid: nat, text: string)
      requires Valid()
      modifies this`notes, this`hasChanges
      ensures Valid()
      ensures notes == SetDescriptionOf(old(notes), oid, text)
      ensures hasChanges == (old(hasChanges) || oid in ObjectIds(old(notes)))
    {
      hasChanges := hasChanges || oid in ObjectIds(notes);
      notes := SetDescriptionOf(notes, oid, text);
      assert forall i :: 0 <= i < |notes| ==> notes[i].objectId == old(notes)[i].objectId;
    }
  }

  /** The commit state `saveContext()` leaves: with changes `pending`, a successful save
      commits `notes` and clears the flag, and a failed one is swallowed and keeps the
      changes pending; without changes nothing is written. */
  predicate SaveOutcome(pending: bool, saveOk: bool, notes: seq<VoiceNoteEntity>,
                        before: seq<VoiceNoteEntity>, hasChanges: bool, persisted: seq<VoiceNoteEntity>)
  {
    if pending && saveOk then !hasChanges && persisted == notes
    else hasChanges == pending && persisted == before
  }

  /** The audio file name of the managed object `note`: its record's while the context
      `s` holds one, and the name it was given otherwise. */
  function FileNameIn(s: seq<VoiceNoteEntity>, note: VoiceNoteEntity): Option<string> {
    match LookupIn(s, note.objectId)
    case Some(record) => record.audioFileName
    case None => note.audioFileName
  }

  /** A stale copy of a managed object, whose attributes may have changed in the context
      since it was fetched, still names the file of the context's record of that object:
      deleting it removes that file and no other. */
  lemma StaleCopyUsesRecordFile(s: seq<VoiceNoteEntity>, note: VoiceNoteEntity, i: nat)
    requires DistinctObjects(s) && i < |s| && s[i].objectId == note.objectId
    ensures FileNameIn(s, note) == s[i].audioFileName
  {
    var r := LookupIn(s, note.objectId);
    assert note.objectId in ObjectIds(s);
    var j :| 0 <= j < |s| && s[j] == r.value;
    assert j == i;
  }

  function LookupIn(s: seq<VoiceNoteEntity>, oid: nat): (r: Option<VoiceNoteEntity>)
    ensures r.Some? ==> r.value in s && r.value.objectId == oid
    ensures r.None? ==> oid !in ObjectIds(s)
  {
    if s == [] then None
    else if s[0].objectId == oid then Some(s[0])
    else
      var r := LookupIn(s[1..], oid);
      assert ObjectIds(s) == {s[0].objectId} + ObjectIds(s[1..]);
      r
  }

  lemma {:induction false} RemoveKeepsDistinct(s: seq<VoiceNoteEntity>, oid: nat)
    requires DistinctObjects(s)
    ensures DistinctObjects(RemoveObject(s, oid))
    ensures forall x :: x in RemoveObject(s, oid) ==> x in s
  {
    if s != [] {
      RemoveKeepsDistinct(s[1..], oid);
      var rest := RemoveObject(s[1..], oid);
      assert forall x :: x in rest ==> x in s[1..];
      var r := RemoveObject(s, oid);
      forall i, j | 0 <= i < j < |r| ensures r[i].objectId != r[j].objectId {
        if s[0].objectId != oid && i == 0 {
          assert r[j] in s[1..];
          var k :| 0 <= k < |s[1..]| && s[1..][k] == r[j];
          assert s[k + 1] == r[j];
        }
      }
    }
  }

  /** Removing a record keeps the store's invariant: distinct objects, all below the
      next object identifier. */
  lemma RemoveKeepsValid(s: seq<VoiceNoteEntity>, oid: nat, bound: nat)
    requires DistinctObjects(s) && forall i :: 0 <= i < |s| ==> s[i].objectId < bound
    ensures var r := RemoveObject(s, oid);
      DistinctObjects(r) && forall i :: 0 <= i < |r| ==> r[i].objectId < bound
  {
    var r := RemoveObject(s, oid);
    RemoveKeepsDistinct(s, oid);
    forall i | 0 <= i < |r| ensures r[i].objectId < bound {
      assert r[i] in s;
    }
  }

  /** Deleting a voice note leaves exactly the other records, in order, and no record
      of that object. */
  lemma DeleteRemovesOnlyThatNote(s: seq<VoiceNoteEntity>, oid: nat)
    requires DistinctObjects(s)
    ensures oid !in ObjectIds(RemoveObject(s, oid))
    ensures oid in ObjectIds(s) ==> |RemoveObject(s, oid)| == |s| - 1
  {
    if oid in ObjectIds(s) {
      RemoveOneOfDistinct(s, oid);
    }
  }

  lemma {:induction false} RemoveOneOfDistinct(s: seq<VoiceNoteEntity>, oid: nat)
    requires DistinctObjects(s) && oid in ObjectIds(s)
    ensures |RemoveObject(s, oid)| == |s| - 1
  {
    assert ObjectIds(s) == {s[0].objectId} + ObjectIds(s[1..]);
    if s[0].objectId == oid {
      assert oid !in ObjectIds(s[1..]);
    } else {
      RemoveOneOfDistinct(s[1..], oid);
    }
  }
}
