/** The recording screen, `VoiceNoteViewController`: press-and-hold recording sessions,
    the elapsed-time label, the level samples taken while recording, and saving the
    recording (or its edited metadata) to the voice-note store. */
module VoiceNoteScreen {
  import opened Options
  import opened FolderCategories
  import opened Waveform
  import opened CoreDataStore

  /* ---- The timer label ---- */

  function DigitChar(d: nat): (c: char)
    requires d < 10
    ensures '0' <= c <= '9'
  {
    ('0' as int + d) as char
  }

  /** `%02d` of a number below 100. */
  function Pad2(n: nat): (s: string)
    requires n < 100
    ensures |s| == 2 && '0' <= s[0] <= '9' && '0' <= s[1] <= '9'
  {
    [DigitChar(n / 10), DigitChar(n % 10)]
  }

  /** The number two decimal digits stand for. */
  function TwoDigitValue(s: string): int
    requires |s| == 2
  {
    (s[0] as int - '0' as int) * 10 + (s[1] as int - '0' as int)
  }

  /** `updateTimerLabel(with:)`: `String(format: "00:%02d:%02d", mins, secs)` for the whole
      seconds `Int(total)`; the hour field is always "00". */
  function TimerLabel(total: real): (r: string)
    requires total >= 0.0
    ensures |r| == 8 && r[..3] == "00:" && r[5] == ':'
    ensures '0' <= r[3] <= '9' && '0' <= r[4] <= '9' && '0' <= r[6] <= '9' && '0' <= r[7] <= '9'
  {
    var t := total.Floor;
    "00:" + Pad2((t % 3600) / 60) + ":" + Pad2(t % 60)
  }

  /** Reading the label back gives minutes and seconds of the whole seconds, both below 60. */
  lemma TimerLabelFields(total: real)
    requires total >= 0.0
    ensures var r := TimerLabel(total); var t := total.Floor;
      && TwoDigitValue(r[3..5]) == (t % 3600) / 60 < 60
      && TwoDigitValue(r[6..8]) == t % 60 < 60
  {
    var t := total.Floor;
    var r := TimerLabel(total);
    assert r[3..5] == Pad2((t % 3600) / 60);
    assert r[6..8] == Pad2(t % 60);
  }

  /** Hours are never shown: the label repeats every hour. */
  lemma TimerLabelHourly(total: real)
    requires total >= 0.0
    ensures TimerLabel(total + 3600.0) == TimerLabel(total)
  {
    var t := total.Floor;
    assert (total + 3600.0).Floor == t + 3600;
    assert (t + 3600) % 3600 == t % 3600;
    assert (t + 3600) % 60 == t % 60;
  }

  /* ---- Level samples ---- */

  /** `max(0.1, min(1.0, (power + 60) / 60))`: a meter reading in dB mapped onto the
      displayed range. */
  function NormalizedLevel(power: real): (r: real)
    ensures 0.1 <= r <= 1.0
  {
    Clamp((power + 60.0) / 60.0)
  }

  /** Readings at or above 0 dB show full scale, readings at or below -54 dB the floor, and
      louder never shows lower. */
  lemma NormalizedLevelShape(p: real, q: real)
    ensures p >= 0.0 ==> NormalizedLevel(p) == 1.0
    ensures p <= -54.0 ==> NormalizedLevel(p) == 0.1
    ensures p <= q ==> NormalizedLevel(p) <= NormalizedLevel(q)
  {
  }

  /** `stride(from: 0, to: levels.count, by: 5).map { levels[$0] }`. */
  function Compress(levels: seq<real>): (r: seq<real>)
    decreases |levels|
    ensures |r| == (|levels| + 4) / 5
  {
    if levels == [] then []
    else [levels[0]] + Compress(if |levels| > 5 then levels[5..] else [])
  }

  /** The compressed levels are the samples at indices 0, 5, 10, ...: ceil(n / 5) of them. */
  lemma {:induction false} CompressKeepsEveryFifth(levels: seq<real>)
    decreases |levels|
    ensures |Compress(levels)| == (|levels| + 4) / 5
    ensures forall i :: 0 <= i < |Compress(levels)| ==> Compress(levels)[i] == levels[5 * i]
  {
    if levels != [] {
      var rest := if |levels| > 5 then levels[5..] else [];
      CompressKeepsEveryFifth(rest);
      var c := Compress(levels);
      assert c == [levels[0]] + Compress(rest);
      forall i | 0 < i < |c| ensures c[i] == levels[5 * i] {
        assert c[i] == Compress(rest)[i - 1] == rest[5 * (i - 1)];
      }
    }
  }

  /* ---- Metadata ---- */

  /** The description saved with the note: the text field's text, or "No description" when
      the field is nil or empty. */
  function DescriptionText(text: Option<string>): (r: string)
    ensures text == None || text == Some("") ==> r == "No description"
    ensures text.Some? && text.value != "" ==> r == text.value
  {
    if text.Some? && text.value != "" then text.value else "No description"
  }

  /** The folders every share menu offers first. */
  const DefaultFolders: seq<string> := ["Personal", "Work", "School", "Travel"]

  /** The default folders are the first four folder categories. */
  lemma DefaultFoldersAreFirstCategories()
    ensures |DefaultFolders| == 4
    ensures forall i :: 0 <= i < 4 ==> DefaultFolders[i] == RawValue(AllCases()[i])
  {
  }

  /** `compactMap { $0.title }`. */
  function PresentTitles(titles: seq<Option<string>>): (r: seq<string>)
    ensures forall x :: x in r <==> Some(x) in titles
  {
    if titles == [] then []
    else (if titles[0].Some? then [titles[0].value] else []) + PresentTitles(titles[1..])
  }

  /** `filter { !defaultFolders.contains($0) }`. */
  function WithoutDefaults(names: seq<string>): (r: seq<string>)
    ensures forall x :: x in r <==> x in names && x !in DefaultFolders
  {
    if names == [] then []
    else (if names[0] in DefaultFolders then [] else [names[0]]) + WithoutDefaults(names[1..])
  }

  /** The share menu's folder list: the four defaults, then every saved folder title that is
      not a default, in fetch order. */
  function ShareMenuFolders(savedTitles: seq<Option<string>>): (r: seq<string>)
    ensures |r| >= 4 && r[..4] == DefaultFolders
    ensures forall x :: x in r <==> x in DefaultFolders || Some(x) in savedTitles
    ensures forall i :: 4 <= i < |r| ==> r[i] !in DefaultFolders
    ensures r[4..] == WithoutDefaults(PresentTitles(savedTitles))
  {
    var extra := WithoutDefaults(PresentTitles(savedTitles));
    assert forall i :: 0 <= i < |extra| ==> extra[i] in extra;
    DefaultFolders + extra
  }

  /** A folder title is listed as often as the fetched folders carry it. */
  lemma {:induction false} PresentTitlesCounts(titles: seq<Option<string>>, x: string)
    ensures multiset(PresentTitles(titles))[x] == multiset(titles)[Some(x)]
  {
    if titles != [] {
      PresentTitlesCounts(titles[1..], x);
      assert titles == [titles[0]] + titles[1..];
    }
  }

  /** A default name is dropped every time; any other name is kept every time. */
  lemma {:induction false} WithoutDefaultsCounts(names: seq<string>, x: string)
    ensures multiset(WithoutDefaults(names))[x] == if x in DefaultFolders then 0 else multiset(names)[x]
  {
    if names != [] {
      WithoutDefaultsCounts(names[1..], x);
      assert names == [names[0]] + names[1..];
    }
  }

  /** The menu lists each default once and every other folder title as often as the
      fetched folders carry it. */
  lemma ShareMenuCounts(savedTitles: seq<Option<string>>, x: string)
    ensures multiset(ShareMenuFolders(savedTitles))[x]
         == if x in DefaultFolders then 1 else multiset(savedTitles)[Some(x)]
  {
    var r := ShareMenuFolders(savedTitles);
    var extra := WithoutDefaults(PresentTitles(savedTitles));
    assert r == DefaultFolders + extra;
    PresentTitlesCounts(savedTitles, x);
    WithoutDefaultsCounts(PresentTitles(savedTitles), x);
    assert multiset(DefaultFolders)[x] == if x in DefaultFolders then 1 else 0;
  }

  /** Each default folder is listed exactly once. */
  lemma DefaultsListedOnce(savedTitles: seq<Option<string>>, i: nat, j: nat)
    requires var r := ShareMenuFolders(savedTitles); i < j < |r| && r[i] in DefaultFolders
    ensures ShareMenuFolders(savedTitles)[i] != ShareMenuFolders(savedTitles)[j]
  {
    var r := ShareMenuFolders(savedTitles);
    if j >= 4 {
      assert r[j] !in DefaultFolders;
    } else {
      assert r[i] == DefaultFolders[i] && r[j] == DefaultFolders[j];
    }
  }

  /** Filtering keeps the order of the saved folders: it works piece by piece. */
  lemma {:induction false} ExtraFoldersInOrder(a: seq<Option<string>>, b: seq<Option<string>>)
    ensures WithoutDefaults(PresentTitles(a + b))
         == WithoutDefaults(PresentTitles(a)) + WithoutDefaults(PresentTitles(b))
  {
    PresentTitlesAppend(a, b);
    WithoutDefaultsAppend(PresentTitles(a), PresentTitles(b));
  }

  lemma {:induction false} PresentTitlesAppend(a: seq<Option<string>>, b: seq<Option<string>>)
    ensures PresentTitles(a + b) == PresentTitles(a) + PresentTitles(b)
  {
    if a == [] {
      assert a + b == b;
    } else {
      assert (a + b)[0] == a[0] && (a + b)[1..] == a[1..] + b;
      PresentTitlesAppend(a[1..], b);
    }
  }

  lemma {:induction false} WithoutDefaultsAppend(a: seq<string>, b: seq<string>)
    ensures WithoutDefaults(a + b) == WithoutDefaults(a) + WithoutDefaults(b)
  {
    if a == [] {
      assert a + b == b;
    } else {
      assert (a + b)[0] == a[0] && (a + b)[1..] == a[1..] + b;
      WithoutDefaultsAppend(a[1..], b);
    }
  }

  /* ---- The screen ---- */

  /** The state of the screen's `AVAudioRecorder`. */
  datatype RecorderState = NoRecorder | Recording | Paused | Stopped

  class VoiceNoteViewController {
    const store: CoreDataManager
    const waveformView: WaveformLineView

    var recorder: RecorderState
    var currentFileName: string
    var accumulatedTime: real
    var sessionStartTime: Option<real>
    var isRecordingSessionActive: bool
    var recordedLevels: seq<real>
    var selectedCategory: string
    /** The store object this screen shows or last saved, if any. */
    var currentVoiceNote: Option<nat>
    /** `noteTitleTextField.text`. */
    var noteTitleText: Option<string>
    /** `timerLabel.text`. */
    var timerText: Option<string>
    /** How many `refreshHomeNotes` notifications the screen has posted. */
    var refreshPosts: nat
    /** Whether the timer pair held in `recordingTimer` and `waveformTimer` is scheduled. */
    var timersRunning: bool
    /** Scheduled timer pairs the screen no longer holds: `startTimers()` overwrites both
        timer references without invalidating a pair that still runs, so `stopTimers()`
        cannot reach it again and it keeps firing. */
    var orphanedTimers: nat
    /** `recordButton.isEnabled`: an existing note cannot be recorded over. */
    var recordButtonEnabled: bool

    ghost predicate Valid()
      reads this, store, waveformView
    {
      store.Valid() && waveformView.Valid() && accumulatedTime >= 0.0
    }

    /** A freshly loaded screen, for a new recording (`note == None`) or for an existing
        note of the store. */
    constructor (store: CoreDataManager, waveformView: WaveformLineView, note: Option<nat>)
      requires store.Valid() && waveformView.Valid()
      ensures Valid()
      ensures this.store == store && this.waveformView == waveformView
      ensures currentVoiceNote == note && !isRecordingSessionActive && recorder == NoRecorder
      ensures accumulatedTime == 0.0 && sessionStartTime == None && recordedLevels == []
      ensures selectedCategory == "Personal" && noteTitleText == Some("")
      ensures timerText == Some("00:00:00") && refreshPosts == 0
      ensures !timersRunning && orphanedTimers == 0 && recordButtonEnabled
    {
      this.store := store;
      this.waveformView := waveformView;
      recorder := NoRecorder;
      currentFileName := "";
      accumulatedTime := 0.0;
      sessionStartTime := None;
      isRecordingSessionActive := false;
      recordedLevels := [];
      selectedCategory := "Personal";
      currentVoiceNote := note;
      noteTitleText := Some("");
      timerText := Some("00:00:00");
      refreshPosts := 0;
      timersRunning := false;
      orphanedTimers := 0;
      recordButtonEnabled := true;
    }

    /** `loadVoiceNoteData()`: shows the stored note's description, folder, duration and
        waveform, and disables recording. */
    method LoadVoiceNoteData()
      requires Valid()
      modifies this`noteTitleText, this`selectedCategory, this`timerText, this`recordButtonEnabled,
               waveformView`levels
      ensures Valid()
      ensures currentVoiceNote.None? ==>
        noteTitleText == old(noteTitleText) && selectedCategory == old(selectedCategory)
        && timerText == old(timerText) && waveformView.levels == old(waveformView.levels)
        && recordButtonEnabled == old(recordButtonEnabled)
      ensures currentVoiceNote.Some? && store.Lookup(currentVoiceNote.value).None? ==>
        noteTitleText == Some("No Name") && selectedCategory == "Personal"
        && timerText == Some("00:00:00") && !recordButtonEnabled
        && waveformView.levels == old(waveformView.levels)
      ensures currentVoiceNote.Some? && store.Lookup(currentVoiceNote.value).Some? ==>
        var note := store.Lookup(currentVoiceNote.value).value;
        && noteTitleText == Some(note.noteDescription.GetOr("No Name"))
        && selectedCategory == note.title.GetOr("Personal")
        && timerText == Some(note.durationText.GetOr("00:00:00"))
        && !recordButtonEnabled
        && waveformView.levels == (
             if note.waveformData.Some? && DecodeLevels(note.waveformData.value).Some?
             then DecodeLevels(note.waveformData.value).value else old(waveformView.levels))
    {
      if currentVoiceNote.Some? {
        var found := store.Lookup(currentVoiceNote.value);
        if found.Some? {
          var note := found.value;
          noteTitleText := Some(note.noteDescription.GetOr("No Name"));
          selectedCategory := note.title.GetOr("Personal");
          timerText := Some(note.durationText.GetOr("00:00:00"));
          if note.waveformData.Some? {
            var levels := DecodeLevels(note.waveformData.value);
            if levels.Some? {
              waveformView.Reset();
              waveformView.SetLevels(levels.value);
            }
          }
          recordButtonEnabled := false;
        } else {
          // The held object is gone from the context: its attributes read as nil.
          noteTitleText := Some("No Name");
          selectedCategory := "Personal";
          timerText := Some("00:00:00");
          recordButtonEnabled := false;
        }
      }
    }

    /** `startNewRecordingSession()` at time `now`, recording to `uuid + ".m4a"`; when the
        recorder cannot be created (`recorderOk == false`) only the file name changes. */
    method StartNewRecordingSession(now: real, uuid: string, recorderOk: bool)
      requires Valid()
      modifies this`currentFileName, this`recorder, this`accumulatedTime, this`sessionStartTime,
               this`timersRunning, this`orphanedTimers, waveformView`levels, store`files
      ensures Valid()
      ensures currentFileName == uuid + ".m4a"
      ensures recorderOk ==>
        recorder == Recording && accumulatedTime == 0.0 && timersRunning
        && orphanedTimers == old(orphanedTimers) + (if old(timersRunning) then 1 else 0)
        && sessionStartTime == Some(now) && waveformView.levels == []
        && store.files == old(store.files) + {uuid + ".m4a"}
      ensures !recorderOk ==>
        recorder == old(recorder) && accumulatedTime == old(accumulatedTime)
        && timersRunning == old(timersRunning) && orphanedTimers == old(orphanedTimers)
        && sessionStartTime == old(sessionStartTime) && waveformView.levels == old(waveformView.levels)
        && store.files == old(store.files)
    {
      currentFileName := uuid + ".m4a";
      if recorderOk {
        recorder := Recording;
        store.files := store.files + {currentFileName};
        waveformView.Reset();
        accumulatedTime := 0.0;
        sessionStartTime := Some(now);
        StartTimers();
      }
    }

    /** `startTimers()`: schedules a new timer pair; a pair still scheduled is orphaned. */
    method StartTimers()
      modifies this`timersRunning, this`orphanedTimers
      ensures timersRunning
      ensures orphanedTimers == old(orphanedTimers) + (if old(timersRunning) then 1 else 0)
    {
      if timersRunning {
        orphanedTimers := orphanedTimers + 1;
      }
      timersRunning := true;
    }

    /** Whether any timer pair, held or orphaned, is still scheduled. */
    predicate TimersFire()
      reads this
    {
      timersRunning || orphanedTimers > 0
    }

    /** `handleTouchDown()` at time `now`: the first press of a session clears the samples
        and starts a new session; later presses resume the recorder and restart the clock. */
    method HandleTouchDown(now: real, uuid: string, recorderOk: bool)
      requires Valid()
      modifies this, waveformView`levels, store`files
      ensures Valid()
      ensures isRecordingSessionActive
      ensures selectedCategory == old(selectedCategory) && currentVoiceNote == old(currentVoiceNote)
      ensures noteTitleText == old(noteTitleText) && timerText == old(timerText)
      ensures refreshPosts == old(refreshPosts) && recordButtonEnabled == old(recordButtonEnabled)
      ensures !old(isRecordingSessionActive) ==>
        && recordedLevels == [] && currentFileName == uuid + ".m4a"
        && (recorderOk ==>
              recorder == Recording && accumulatedTime == 0.0 && timersRunning
              && orphanedTimers == old(orphanedTimers) + (if old(timersRunning) then 1 else 0)
              && sessionStartTime == Some(now) && waveformView.levels == []
              && store.files == old(store.files) + {uuid + ".m4a"})
        && (!recorderOk ==>
              recorder == old(recorder) && accumulatedTime == old(accumulatedTime)
              && timersRunning == old(timersRunning) && orphanedTimers == old(orphanedTimers)
              && sessionStartTime == old(sessionStartTime) && waveformView.levels == old(waveformView.levels)
              && store.files == old(store.files))
      ensures old(isRecordingSessionActive) ==>
        && recordedLevels == old(recordedLevels) && currentFileName == old(currentFileName)
        && recorder == (if old(recorder) == NoRecorder then NoRecorder else Recording)
        && accumulatedTime == old(accumulatedTime) && sessionStartTime == Some(now)
        && timersRunning && waveformView.levels == old(waveformView.levels)
        && orphanedTimers == old(orphanedTimers) + (if old(timersRunning) then 1 else 0)
        && store.files == old(store.files)
    {
      if !isRecordingSessionActive {
        recordedLevels := [];
        StartNewRecordingSession(now, uuid, recorderOk);
        isRecordingSessionActive := true;
      } else {
        if recorder != NoRecorder {
          recorder := Recording;
        }
        sessionStartTime := Some(now);
        StartTimers();
      }
    }

    /** `handleTouchUp()` at time `now`: pauses the recorder and adds the time since the
        session clock started to the accumulated time, and stops the timers. */
    method HandleTouchUp(now: real)
      requires Valid()
      requires sessionStartTime.Some? ==> now >= sessionStartTime.value
      modifies this`recorder, this`accumulatedTime, this`timersRunning
      ensures Valid()
      ensures !timersRunning
      ensures accumulatedTime >= old(accumulatedTime)
      ensures accumulatedTime == old(accumulatedTime)
        + (if sessionStartTime.Some? then now - sessionStartTime.value else 0.0)
      ensures recorder == if old(recorder) == NoRecorder then NoRecorder else Paused
    {
      if recorder != NoRecorder {
        recorder := Paused;
      }
      if sessionStartTime.Some? {
        accumulatedTime := accumulatedTime + (now - sessionStartTime.value);
      }
      timersRunning := false;
    }

    /** One firing of the recording timer at time `now` (a stopped timer does not fire):
        the label shows the accumulated
        time plus the time since the session clock started. */
    method RecordingTimerFired(now: real)
      requires Valid()
      requires sessionStartTime.Some? ==> now >= sessionStartTime.value
      modifies this`timerText
      ensures TimersFire() && sessionStartTime.Some? ==>
        timerText == Some(TimerLabel(accumulatedTime + (now - sessionStartTime.value)))
      ensures !TimersFire() || sessionStartTime.None? ==> timerText == old(timerText)
    {
      if TimersFire() && sessionStartTime.Some? {
        timerText := Some(TimerLabel(accumulatedTime + (now - sessionStartTime.value)));
      }
    }

    /** One firing of the waveform timer, `updateWaveform()`, with meter reading `power`
        (dB) in a waveform view `width` points wide: while the timer runs and the recorder
        records, the normalised level is kept and drawn. */
    method UpdateWaveform(power: real, width: nat)
      requires Valid()
      modifies this`recordedLevels, waveformView`levels
      ensures Valid()
      ensures TimersFire() && recorder == Recording ==>
        && recordedLevels == old(recordedLevels) + [NormalizedLevel(power)]
        && waveformView.levels == AfterAdd(old(waveformView.levels), NormalizedLevel(power),
                                           width, waveformView.barWidth + waveformView.barGap)
      ensures !TimersFire() || recorder != Recording ==>
        recordedLevels == old(recordedLevels) && waveformView.levels == old(waveformView.levels)
    {
      if TimersFire() && recorder == Recording {
        var normalized := NormalizedLevel(power);
        recordedLevels := recordedLevels + [normalized];
        waveformView.AddLevel(normalized, width);
      }
    }

    /** `finalizeAndSaveRecording()` at time `now`. An active session is saved as one new
        note (every fifth sample, the label's duration, the chosen folder and description)
        which becomes the screen's note, and the session ends. Otherwise an existing note
        only gets the description and folder. A refresh is posted either way. */
    method FinalizeAndSaveRecording(now: real, saveOk: bool)
      requires Valid()
      modifies this`recorder, this`timersRunning, this`currentVoiceNote,
               this`isRecordingSessionActive, this`refreshPosts, store
      ensures Valid()
      ensures refreshPosts == old(refreshPosts) + 1
      ensures !isRecordingSessionActive
      ensures store.files == old(store.files)
      ensures old(isRecordingSessionActive) ==>
        && store.notes == old(store.notes) + [VoiceNoteEntity(old(store.nextObjectId), None,
             Some(currentFileName), Some(timerText.GetOr("00:00:00")), now,
             Some(selectedCategory), Some(DescriptionText(noteTitleText)),
             Some(EncodeLevels(Compress(recordedLevels))))]
        && store.nextObjectId == old(store.nextObjectId) + 1
        && SaveOutcome(true, saveOk, store.notes, old(store.persisted), store.hasChanges, store.persisted)
        && currentVoiceNote == Some(old(store.nextObjectId))
        && recorder == (if old(recorder) == NoRecorder then NoRecorder else Stopped)
        && !timersRunning
      ensures !old(isRecordingSessionActive) ==>
        && currentVoiceNote == old(currentVoiceNote) && recorder == old(recorder)
        && timersRunning == old(timersRunning)
        && store.nextObjectId == old(store.nextObjectId)
        && store.notes == (if currentVoiceNote.None? then old(store.notes)
           else SetTitleOf(SetDescriptionOf(old(store.notes), currentVoiceNote.value,
                  DescriptionText(noteTitleText)), currentVoiceNote.value, selectedCategory))
        && (currentVoiceNote.None? ==>
              store.hasChanges == old(store.hasChanges) && store.persisted == old(store.persisted))
        && (currentVoiceNote.Some? ==>
              SaveOutcome(old(store.hasChanges) || currentVoiceNote.value in ObjectIds(old(store.notes)),
                          saveOk, store.notes, old(store.persisted), store.hasChanges, store.persisted))
    {
      if isRecordingSessionActive {
        SaveNewRecording(now, saveOk);
      } else if currentVoiceNote.Some? {
        UpdateSavedNote(saveOk);
      }
      refreshPosts := refreshPosts + 1;
    }

    /** The first branch of the finaliser: stops the recorder and the timers and saves a
        new record with the compressed levels, the folder and the description. */
    method SaveNewRecording(now: real, saveOk: bool)
      requires Valid() && isRecordingSessionActive
      modifies this`recorder, this`timersRunning, this`currentVoiceNote,
               this`isRecordingSessionActive, store
      ensures Valid()
      ensures !isRecordingSessionActive && !timersRunning
      ensures store.files == old(store.files)
      ensures store.notes == old(store.notes) + [VoiceNoteEntity(old(store.nextObjectId), None,
             Some(currentFileName), Some(timerText.GetOr("00:00:00")), now,
             Some(selectedCategory), Some(DescriptionText(noteTitleText)),
             Some(EncodeLevels(Compress(recordedLevels))))]
      ensures store.nextObjectId == old(store.nextObjectId) + 1
      ensures SaveOutcome(true, saveOk, store.notes, old(store.persisted), store.hasChanges, store.persisted)
      ensures currentVoiceNote == Some(old(store.nextObjectId))
      ensures recorder == if old(recorder) == NoRecorder then NoRecorder else Stopped
    {
      var descriptionText := DescriptionText(noteTitleText);
      var categoryToSave := selectedCategory;
      if recorder != NoRecorder {
        recorder := Stopped;
      }
      timersRunning := false;
      var compressedLevels := Compress(recordedLevels);
      store.SaveVoiceNoteWithMetadata(currentFileName, timerText.GetOr("00:00:00"),
        compressedLevels, categoryToSave, descriptionText, now, saveOk);
      currentVoiceNote := Some(store.notes[|store.notes| - 1].objectId);
      isRecordingSessionActive := false;
    }

    /** The second branch of the finaliser: writes the description and the folder into
        the note already saved, then saves. */
    method UpdateSavedNote(saveOk: bool)
      requires Valid() && currentVoiceNote.Some?
      modifies store
      ensures Valid()
      ensures store.files == old(store.files) && store.nextObjectId == old(store.nextObjectId)
      ensures store.notes == SetTitleOf(SetDescriptionOf(old(store.notes), currentVoiceNote.value,
                DescriptionText(noteTitleText)), currentVoiceNote.value, selectedCategory)
      ensures SaveOutcome(old(store.hasChanges) || currentVoiceNote.value in ObjectIds(old(store.notes)),
                          saveOk, store.notes, old(store.persisted), store.hasChanges, store.persisted)
    {
      var existing := currentVoiceNote.value;
      store.SetNoteDescription(existing, DescriptionText(noteTitleText));
      store.SetTitle(existing, selectedCategory);
      store.SaveContext(saveOk);
    }

    /** The share menu's "move to folder" callback: the chosen folder becomes the screen's
        category and, for a note already saved, the note's folder at once. */
    method MoveToFolder(folderName: string, saveOk: bool)
      requires Valid()
      modifies this`selectedCategory, store
      ensures Valid()
      ensures selectedCategory == folderName
      ensures store.files == old(store.files) && store.nextObjectId == old(store.nextObjectId)
      ensures store.notes == if currentVoiceNote.None? then old(store.notes)
                             else SetTitleOf(old(store.notes), currentVoiceNote.value, folderName)
      ensures currentVoiceNote.None? ==>
        store.hasChanges == old(store.hasChanges) && store.persisted == old(store.persisted)
      ensures currentVoiceNote.Some? ==>
        SaveOutcome(old(store.hasChanges) || currentVoiceNote.value in ObjectIds(old(store.notes)),
                    saveOk, store.notes, old(store.persisted), store.hasChanges, store.persisted)
    {
      selectedCategory := folderName;
      if currentVoiceNote.Some? {
        store.SetTitle(currentVoiceNote.value, folderName);
        store.SaveContext(saveOk);
      }
    }

    /** `viewWillDisappear(_:)` at time `now`: leaving the screen mid-session saves the
        recording; otherwise nothing is saved. */
    method ViewWillDisappear(now: real, saveOk: bool)
      requires Valid()
      modifies this`recorder, this`timersRunning, this`currentVoiceNote,
               this`isRecordingSessionActive, this`refreshPosts, store
      ensures Valid()
      ensures !isRecordingSessionActive
      ensures !old(isRecordingSessionActive) ==> unchanged(this) && unchanged(store)
      ensures old(isRecordingSessionActive) ==>
        && refreshPosts == old(refreshPosts) + 1
        && store.notes == old(store.notes) + [VoiceNoteEntity(old(store.nextObjectId), None,
             Some(currentFileName), Some(timerText.GetOr("00:00:00")), now,
             Some(selectedCategory), Some(DescriptionText(noteTitleText)),
             Some(EncodeLevels(Compress(recordedLevels))))]
        && store.files == old(store.files) && store.nextObjectId == old(store.nextObjectId) + 1
        && SaveOutcome(true, saveOk, store.notes, old(store.persisted), store.hasChanges, store.persisted)
        && currentVoiceNote == Some(old(store.nextObjectId))
        && recorder == (if old(recorder) == NoRecorder then NoRecorder else Stopped)
        && !timersRunning
    {
      if isRecordingSessionActive {
        FinalizeAndSaveRecording(now, saveOk);
      }
    }

    /** The share menu's confirmed "delete" callback: the screen's note, when there is
        one, is deleted from the store together with its audio file. */
    method DeleteCurrentNote(removeOk: bool, saveOk: bool)
      requires Valid()
      modifies store
      ensures Valid()
      ensures currentVoiceNote.None? ==> unchanged(store)
      ensures currentVoiceNote.Some? ==>
        store.notes == RemoveObject(old(store.notes), currentVoiceNote.value)
        && currentVoiceNote.value !in ObjectIds(store.notes)
      ensures currentVoiceNote.Some? && LookupIn(old(store.notes), currentVoiceNote.value).None? ==>
        unchanged(store)
      ensures currentVoiceNote.Some? && LookupIn(old(store.notes), currentVoiceNote.value).Some? ==>
        var fileName := LookupIn(old(store.notes), currentVoiceNote.value).value.audioFileName;
        && store.nextObjectId == old(store.nextObjectId)
        && store.files == (if fileName.Some? && removeOk then old(store.files) - {fileName.value}
                           else old(store.files))
        && SaveOutcome(true, saveOk, store.notes, old(store.persisted), store.hasChanges, store.persisted)
    {
      if currentVoiceNote.Some? {
        var found := store.Lookup(currentVoiceNote.value);
        if found.Some? {
          store.DeleteVoiceNote(found.value, removeOk, saveOk);
          DeleteRemovesOnlyThatNote(old(store.notes), currentVoiceNote.value);
        } else {
          assert RemoveObject(store.notes, currentVoiceNote.value) == store.notes;
        }
      }
    }
  }
}
