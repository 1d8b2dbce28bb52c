/** The folder screen, `FolderDetailViewController`: the notes filed under one folder,
    voice notes first, the sort label, and deleting a listed note. */
module FolderDetail {
  import opened Options
  import opened CoreDataStore

  /** A plain-text note, as far as the folder screen looks at it. The plain-note store is
      not part of this model: plain lists come in as parameters. */
  datatype PlainNoteEntity = PlainNoteEntity(objectId: nat, category: Option<string>, content: Option<string>)

  /** `HomeNoteItem`: one cell of a note list. */
  datatype HomeNoteItem = Voice(voice: VoiceNoteEntity) | Plain(plain: PlainNoteEntity)

  /** `filter { $0.title == category }` over voice notes (a nil title never matches). */
  function VoiceInFolder(notes: seq<VoiceNoteEntity>, category: string): (r: seq<VoiceNoteEntity>)
    ensures |r| <= |notes|
    ensures forall x :: x in r <==> x in notes && x.title == Some(category)
  {
    if notes == [] then []
    else (if notes[0].title == Some(category) then [notes[0]] else [])
         + VoiceInFolder(notes[1..], category)
  }

  /** `filter { $0.category == category }` over plain notes. */
  function PlainInFolder(notes: seq<PlainNoteEntity>, category: string): (r: seq<PlainNoteEntity>)
    ensures |r| <= |notes|
    ensures forall x :: x in r <==> x in notes && x.category == Some(category)
  {
    if notes == [] then []
    else (if notes[0].category == Some(category) then [notes[0]] else [])
         + PlainInFolder(notes[1..], category)
  }

  /** No matching voice note is dropped or repeated: the filter keeps every copy of a
      matching note and nothing else. */
  lemma {:induction false} VoiceFilterCounts(notes: seq<VoiceNoteEntity>, category: string, x: VoiceNoteEntity)
    ensures multiset(VoiceInFolder(notes, category))[x]
         == if x.title == Some(category) then multiset(notes)[x] else 0
  {
    if notes != [] {
      VoiceFilterCounts(notes[1..], category, x);
      assert notes == [notes[0]] + notes[1..];
    }
  }

  /** The same for plain notes. */
  lemma {:induction false} PlainFilterCounts(notes: seq<PlainNoteEntity>, category: string, x: PlainNoteEntity)
    ensures multiset(PlainInFolder(notes, category))[x]
         == if x.category == Some(category) then multiset(notes)[x] else 0
  {
    if notes != [] {
      PlainFilterCounts(notes[1..], category, x);
      assert notes == [notes[0]] + notes[1..];
    }
  }

  /** Filtering keeps fetch order: it works piece by piece over any split of the list. */
  lemma {:induction false} VoiceFilterKeepsOrder(a: seq<VoiceNoteEntity>, b: seq<VoiceNoteEntity>, category: string)
    ensures VoiceInFolder(a + b, category) == VoiceInFolder(a, category) + VoiceInFolder(b, category)
  {
    if a == [] {
      assert a + b == b;
    } else {
      assert (a + b)[0] == a[0] && (a + b)[1..] == a[1..] + b;
      VoiceFilterKeepsOrder(a[1..], b, category);
    }
  }

  /** The same for plain notes. */
  lemma {:induction false} PlainFilterKeepsOrder(a: seq<PlainNoteEntity>, b: seq<PlainNoteEntity>, category: string)
    ensures PlainInFolder(a + b, category) == PlainInFolder(a, category) + PlainInFolder(b, category)
  {
    if a == [] {
      assert a + b == b;
    } else {
      assert (a + b)[0] == a[0] && (a + b)[1..] == a[1..] + b;
      PlainFilterKeepsOrder(a[1..], b, category);
    }
  }

  /** The list `loadNotesForThisFolder()` shows for folder `category`: the matching voice
      notes, then the matching plain notes, each in the order given. */
  function FolderItems(voice: seq<VoiceNoteEntity>, plain: seq<PlainNoteEntity>, category: string)
    : (r: seq<HomeNoteItem>)
    ensures |r| == |VoiceInFolder(voice, category)| + |PlainInFolder(plain, category)|
    ensures forall i :: 0 <= i < |r| ==> (r[i].Voice? <==> i < |VoiceInFolder(voice, category)|)
    ensures forall i :: 0 <= i < |VoiceInFolder(voice, category)| ==>
      r[i] == Voice(VoiceInFolder(voice, category)[i])
    ensures forall i :: 0 <= i < |PlainInFolder(plain, category)| ==>
      r[|VoiceInFolder(voice, category)| + i] == Plain(PlainInFolder(plain, category)[i])
  {
    var v := VoiceInFolder(voice, category);
    var p := PlainInFolder(plain, category);
    seq(|v|, i requires 0 <= i < |v| => Voice(v[i])) + seq(|p|, i requires 0 <= i < |p| => Plain(p[i]))
  }

  /** Every listed item belongs to the folder, and every note of the folder is listed. */
  lemma FolderItemsMembership(voice: seq<VoiceNoteEntity>, plain: seq<PlainNoteEntity>, category: string,
                              item: HomeNoteItem)
    ensures item in FolderItems(voice, plain, category) <==>
      (item.Voice? && item.voice in voice && item.voice.title == Some(category))
      || (item.Plain? && item.plain in plain && item.plain.category == Some(category))
  {
    var r := FolderItems(voice, plain, category);
    var v := VoiceInFolder(voice, category);
    var p := PlainInFolder(plain, category);
    if item in r {
      var i :| 0 <= i < |r| && r[i] == item;
      if i < |v| {
        assert v[i] in v;
      } else {
        assert p[i - |v|] in p;
      }
    }
  }

  /** The sort choices offered by the sort menu, the only caller of `updateSort`. */
  const SortTitles: seq<string> := ["Last edited", "Alphabetically A-Z", "Alphabetically Z-A", "Newest first"]

  class FolderDetailViewController {
    const store: CoreDataManager
    /** `folderModel?.title`. */
    var folderTitle: Option<string>
    var folderNotes: seq<HomeNoteItem>
    /** `titleLabel.text`. */
    var titleText: Option<string>
    /** `sortLabel.text`. */
    var sortLabel: Option<string>
    /** The plain notes handed to the plain-note store for deletion, oldest first. */
    var plainDeletes: seq<PlainNoteEntity>

    ghost predicate Valid()
      reads this, store
    {
      store.Valid()
    }

    /** A loaded screen for the folder titled `folderTitle`, if any; the title label shows
        the folder's title. Without a folder the app leaves the label's storyboard text,
        which is not modelled: the model shows `None`. */
    constructor (store: CoreDataManager, folderTitle: Option<string>, sortLabel: Option<string>)
      requires store.Valid()
      ensures Valid()
      ensures this.store == store && this.folderTitle == folderTitle && this.sortLabel == sortLabel
      ensures folderNotes == [] && plainDeletes == []
      ensures titleText == folderTitle
    {
      this.store := store;
      this.folderTitle := folderTitle;
      this.sortLabel := sortLabel;
      folderNotes := [];
      titleText := folderTitle;
      plainDeletes := [];
    }

    /** `loadNotesForThisFolder()`, given whether the voice fetch succeeds and the plain
        notes the plain-note store returns; `fetched` is the voice list the store returned.
        Without a folder nothing changes. */
    method LoadNotesForThisFolder(fetchOk: bool, allPlain: seq<PlainNoteEntity>)
      returns (fetched: seq<VoiceNoteEntity>)
      requires Valid()
      modifies this`folderNotes, this`titleText
      ensures Valid()
      ensures folderTitle.None? ==> folderNotes == old(folderNotes) && titleText == old(titleText)
      ensures folderTitle.Some? ==>
        && folderNotes == FolderItems(fetched, allPlain, folderTitle.value)
        && titleText == folderTitle
      ensures fetchOk && folderTitle.Some? ==>
        NewestFirst(fetched) && multiset(fetched) == multiset(store.notes)
      ensures !fetchOk || folderTitle.None? ==> fetched == []
    {
      fetched := [];
      if folderTitle.Some? {
        var currentCategory := folderTitle.value;
        fetched := store.FetchAllNotes(fetchOk);
        folderNotes := FolderItems(fetched, allPlain, currentCategory);
        titleText := Some(currentCategory);
      }
    }

    /** `collectionView(_:numberOfItemsInSection:)`. */
    function NumberOfItems(): (n: nat)
      reads this
      ensures n == |folderNotes|
    {
      |folderNotes|
    }

    /** `updateSort(title:)`, called with one of the menu's titles: only the label changes;
        the list keeps its order. */
    method UpdateSort(title: string)
      requires title in SortTitles
      modifies this`sortLabel
      ensures sortLabel == Some(title) && sortLabel.value in SortTitles
    {
      sortLabel := Some(title);
    }

    /** The confirmed delete of `item`: a voice note goes to the voice store's delete, a
        plain note to the plain-note store; then the list is reloaded. */
    method DeleteItem(item: HomeNoteItem, removeOk: bool, saveOk: bool, fetchOk: bool,
                      allPlain: seq<PlainNoteEntity>)
      returns (fetched: seq<VoiceNoteEntity>)
      requires Valid()
      modifies store, this`folderNotes, this`titleText, this`plainDeletes
      ensures Valid()
      ensures item.Voice? ==>
        && store.notes == RemoveObject(old(store.notes), item.voice.objectId)
        && (var fileName := FileNameIn(old(store.notes), item.voice);
            store.files == if fileName.Some? && removeOk then old(store.files) - {fileName.value}
                           else old(store.files))
        && SaveOutcome(old(store.hasChanges) || item.voice.objectId in ObjectIds(old(store.notes)),
                       saveOk, store.notes, old(store.persisted), store.hasChanges, store.persisted)
        && store.nextObjectId == old(store.nextObjectId)
        && plainDeletes == old(plainDeletes)
      ensures item.Plain? ==>
        unchanged(store) && plainDeletes == old(plainDeletes) + [item.plain]
      ensures folderTitle.None? ==> folderNotes == old(folderNotes) && titleText == old(titleText)
      ensures folderTitle.Some? ==>
        titleText == folderTitle && folderNotes == FolderItems(fetched, allPlain, folderTitle.value)
      ensures fetchOk && folderTitle.Some? ==>
        NewestFirst(fetched) && multiset(fetched) == multiset(store.notes)
      ensures !fetchOk || folderTitle.None? ==> fetched == []
      ensures item.Voice? && folderTitle.Some? ==> item !in folderNotes
    {
      match item {
        case Voice(note) =>
          store.DeleteVoiceNote(note, removeOk, saveOk);
        case Plain(note) =>
          plainDeletes := plainDeletes + [note];
      }
      fetched := LoadNotesForThisFolder(fetchOk, allPlain);
      if item.Voice? && folderTitle.Some? {
        assert item.voice !in store.notes;
        assert item.voice !in multiset(store.notes);
        FolderItemsMembership(fetched, allPlain, folderTitle.value, item);
      }
    }
  }
}
