# QuickNoteApp core, modelled in Dafny

QuickNoteApp is an iOS notes app. It records voice notes by press-and-hold, files
notes into folders, and shows folders with icons and theme colours. This project models
the parts of the app that carry logic, and proves what they promise:

- **the voice-note store** (`CoreDataManager`), in `core_data.dfy`. It is a class that
  holds the context's records, the set of audio files in the documents directory, the
  unsaved-changes flag and the last saved snapshot. It inserts records, deletes them
  together with their audio files, lists them newest first, and commits only when
  something changed. Waveform levels are stored as a JSON array, modelled as a token
  sequence with an encoder and a decoder that invert each other.
- **the custom-category list** (`CustomCategoryManager`), in `custom_category.dfy`. It is
  a class over a user-defaults map. A name is appended only if it is absent, so the
  list stays free of duplicates.
- **the waveform buffer** (`WaveformLineView`), in `waveform.dfy`. It is a class whose
  `levels` sequence is clamped to [0.1, 1.0] and kept as a sliding window of the most
  recent `width / (barWidth + barGap)` samples.
- **the recording screen** (`VoiceNoteViewController`), in `voice_note.dfy`. It covers:
  - the `00:MM:SS` timer label;
  - stride-5 down-sampling and level normalisation;
  - the default description;
  - the share menu's folder list;
  - the record/pause session state machine, as a class over the screen's fields;
  - save-or-update on finalising;
  - the move-to-folder and delete callbacks.
- **the folder screen** (`FolderDetailViewController`), in `folder_detail.dfy`. It filters
  voice and plain notes by folder name, lists voice notes first, keeps a sort label,
  and dispatches deletion on the note kind.
- **hex colours** (`UIColor(hex:alpha:)`), in `hex_color.dfy`. It trims, strips `#`,
  parses base 16 the way Swift's `Int(_:radix:)` does (an optional sign included), and
  extracts three bytes as integers 0..255.
- **icon names** (`IconMapper.getSymbolName`), in `icon_mapper.dfy`. It lowercases, trims
  spaces and tabs (but not newlines), looks the name up in the twelve-entry table, and
  falls back to `folder.fill`.
- **folder categories** (`FolderCategory`), in `folder_category.dfy`. This covers its seven
  cases, the raw values (`ideas` is `"Music"`), `allCases` and the icon asset table.

`character_sets.dfy` models Foundation's `.whitespaces` and `.whitespacesAndNewlines`
sets and `trimmingCharacters(in:)`. `options.dfy` holds the `Option` type used for Swift
optionals.

Some inputs come from outside the model and are parameters of the methods that use them:
- the clock (`Date()`), as a `real` number of seconds;
- fresh UUID strings;
- whether a save, a fetch, a file removal or the creation of the audio recorder succeeds;
- the meter reading of the recorder;
- the width of the waveform view;
- the plain notes and folder titles that other stores return.

## Model

| member | source | states |
|---|---|---|
| CharacterSets.TrimStart | QuickNoteApp/Utility/HexColorExtension.swift:15 | the result is a suffix of the input that does not start with a set character, and everything dropped is in the set |
| CharacterSets.TrimEnd | QuickNoteApp/Utility/HexColorExtension.swift:15 | the result is a prefix of the input that does not end with a set character, and everything dropped is in the set |
| CharacterSets.TrimIgnoresPadding | QuickNoteApp/Home/Model/IconMapper.swift:14 | set characters on either side of a string do not change its trimmed form |
| CharacterSets.TrimKeepsClean | QuickNoteApp/Home/Model/IconMapper.swift:14 | a string that neither starts nor ends with a set character is left unchanged by trimming |
| CharacterSets.TrimAppendSuffix | QuickNoteApp/Utility/HexColorExtension.swift:15 | appending set characters does not change the trimmed form |
| CharacterSets.Trim | QuickNoteApp/Utility/HexColorExtension.swift:15 | `trimmingCharacters(in:)`: the result is no longer than the input and neither starts nor ends with a set character; with TrimIsSlice it is a contiguous slice of the input |
| CharacterSets.TrimIsSlice | QuickNoteApp/Home/Model/IconMapper.swift:14 | the trimmed form is a contiguous slice of the input |
| FolderCategories.AllCases | QuickNoteApp/Home/Model/FolderModelCategory.swift:8-15 | `allCases` has exactly seven pairwise distinct cases |
| FolderCategories.EveryCaseListed | QuickNoteApp/Home/Model/FolderModelCategory.swift:8 | every case appears in `allCases` |
| FolderCategories.RawValue | QuickNoteApp/Home/Model/FolderModelCategory.swift:9-15 | every raw value is one of the seven declared labels; AllRawValues fixes which case has which, and RawValueInjective that they are distinct |
| FolderCategories.AllRawValues | QuickNoteApp/Home/Model/FolderModelCategory.swift:9-15 | `allCases` in order has the raw values Personal, Work, School, Travel, Music, Finance, Health |
| FolderCategories.FromRawValue | QuickNoteApp/Home/Model/FolderModelCategory.swift:8 | `init(rawValue:)` finds a case with that raw value, or returns nil when no case has it |
| FolderCategories.RawValueInjective | QuickNoteApp/Home/Model/FolderModelCategory.swift:9-15 | two cases have the same raw value exactly when they are the same case |
| FolderCategories.RawValueRoundTrip | QuickNoteApp/Home/Model/FolderModelCategory.swift:9-15 | looking a case up by its raw value gives the case back |
| FolderCategories.IdeasIsMusic | QuickNoteApp/Home/Model/FolderModelCategory.swift:13 | case `ideas` has the raw value "Music", and "Ideas" names no case |
| FolderCategories.IconAssetName | QuickNoteApp/Home/Model/FolderModelCategory.swift:17-27 | every case has an icon, one of the seven asset names of the switch; IconAssetTable fixes which case has which |
| FolderCategories.IconAssetTable | QuickNoteApp/Home/Model/FolderModelCategory.swift:17-27 | `iconAssetName` follows the table for all seven cases, e.g. personal gives "user" and travel gives "luggage (2)" |
| IconMapper.GetSymbolName | QuickNoteApp/Home/Model/IconMapper.swift:13-34 | the result is a table symbol or "folder.fill", and it is "folder.fill" whenever the normalised title is not a key |
| IconMapper.LowerCaseIdempotent | QuickNoteApp/Home/Model/IconMapper.swift:14 | lowercasing twice is lowercasing once |
| IconMapper.Normalize | QuickNoteApp/Home/Model/IconMapper.swift:14 | `lowercased().trimmingCharacters(in: .whitespaces)`: no longer than the title, and neither starts nor ends with a space or tab; NormalizeIdempotent and TrimOfLowerIsLower show the result is already normal |
| IconMapper.NormalizeIdempotent | QuickNoteApp/Home/Model/IconMapper.swift:14 | normalising a normalised title changes nothing |
| IconMapper.IgnoresCase | QuickNoteApp/Home/Model/IconMapper.swift:14 | a title and its lowercase form map to the same symbol |
| IconMapper.NormalizingFirstChangesNothing | QuickNoteApp/Home/Model/IconMapper.swift:14-33 | a title and its trimmed lowercase form map to the same symbol |
| IconMapper.IgnoresSurroundingSpaces | QuickNoteApp/Home/Model/IconMapper.swift:14 | spaces and tabs around a title do not change its symbol |
| IconMapper.NewlineIsNotTrimmed | QuickNoteApp/Home/Model/IconMapper.swift:14 | a key followed by a newline is not trimmed back to the key, so it maps to "folder.fill" |
| IconMapper.TrimOfLowerIsLower | QuickNoteApp/Home/Model/IconMapper.swift:14 | trimming after lowercasing leaves a string that lowercasing does not change |
| IconMapper.KeysAreLowerWords | QuickNoteApp/Home/Model/IconMapper.swift:17-30 | every key of the table is a non-empty run of lowercase letters, so no key holds a space, a tab or a newline |
| IconMapper.LowerWordIsNormal | QuickNoteApp/Home/Model/IconMapper.swift:14 | a non-empty lowercase word is already normalised |
| IconMapper.KeyFindsItself | QuickNoteApp/Home/Model/IconMapper.swift:14-33 | a key given as the title finds its own entry |
| IconMapper.NoKeyEndsWithNewline | QuickNoteApp/Home/Model/IconMapper.swift:17-30 | no key followed by a newline is itself a key |
| IconMapper.NewlineSurvivesNormalize | QuickNoteApp/Home/Model/IconMapper.swift:14 | normalising a lowercase word followed by a newline keeps the newline |
| IconMapper.KeyTable | QuickNoteApp/Home/Model/IconMapper.swift:17-30 | every key of the twelve-entry table, given as the title, maps to the symbol the table lists for it |
| HexColor.ParseInt16 | QuickNoteApp/Utility/HexColorExtension.swift:19 | `Int(_:radix: 16)` succeeds exactly for an optional sign followed by one or more hex digits; on digits alone its value is the digits' value, and after a sign it is that value, negated for '-' |
| HexColor.RemoveHashes | QuickNoteApp/Utility/HexColorExtension.swift:16 | no '#' is left in the result |
| HexColor.RemoveHashesAppend | QuickNoteApp/Utility/HexColorExtension.swift:16 | '#' removal works piece by piece, so every '#' goes wherever it is and the other characters keep their order |
| HexColor.Clean | QuickNoteApp/Utility/HexColorExtension.swift:15-16 | the string the guard inspects holds no '#' and is no longer than the input; CleanOfTidy and SurroundingWhitespaceIgnored show what it keeps |
| HexColor.ByteAt | QuickNoteApp/Utility/HexColorExtension.swift:24-26 | `(v >> k) & 0xFF` is a byte, 0..255, for any value including a negative one |
| HexColor.FromHex | QuickNoteApp/Utility/HexColorExtension.swift:13-29 | alpha is passed through, every channel is in 0..255, and the colour is black when the cleaned string is not six characters or does not parse; otherwise red, green and blue are bits 16-23, 8-15 and 0-7 of the parsed value, of either letter case and with a sign |
| HexColor.DigitsRoundTrip | QuickNoteApp/Utility/HexColorExtension.swift:19 | parsing the hex digits of a value gives the value back |
| HexColor.DigitsBound | QuickNoteApp/Utility/HexColorExtension.swift:19 | `n` hex digits stand for a value below 16^n, so six digits fit in 24 bits |
| HexColor.CleanOfTidy | QuickNoteApp/Utility/HexColorExtension.swift:15-16 | a string of hex digits with a digit, sign or '#' in front is cleaned to itself, minus that '#' |
| HexColor.SixDigitRoundTrip | QuickNoteApp/Utility/HexColorExtension.swift:18-26 | six hex digits of a 24-bit value, with or without '#', give bits 16-23, 8-15 and 0-7 as red, green and blue |
| HexColor.LeadingHashIgnored | QuickNoteApp/Utility/HexColorExtension.swift:12-16 | "#36373F" and "36373F" are the same colour |
| HexColor.SurroundingWhitespaceIgnored | QuickNoteApp/Utility/HexColorExtension.swift:15 | whitespace and newlines around the string do not change the colour |
| HexColor.AlphaDefaultsToOpaque | QuickNoteApp/Utility/HexColorExtension.swift:13 | without an alpha argument the colour is opaque |
| HexColor.SignedInputParses | QuickNoteApp/Utility/HexColorExtension.swift:18-26 | "-00001" passes the guard as -1, and its two's-complement bytes make it white |
| HexColor.FromHexDigits | QuickNoteApp/Utility/HexColorExtension.swift:12-29 | with the documented guard (six hex digits, no sign), non-conforming input is black and conforming input gives the same colour as the original |
| HexColor.SixDigitsAgree | QuickNoteApp/Utility/HexColorExtension.swift:18-26 | on six unsigned hex digits `Int(_:radix: 16)` gives the digits' value, below 2^24, whose shifted and masked bytes are its three base-256 digits |
| HexColor.DigitsOnlyGuard | QuickNoteApp/Utility/HexColorExtension.swift:18-26 | the corrected guard sends "-00001" to black and still reads every six-digit colour, with or without '#' |
| HexColor.SignRefused | QuickNoteApp/Utility/HexColorExtension.swift:18-19 | the corrected guard sends "-00001" to the black fallback |
| CustomCategories.WithCategory | QuickNoteApp/Home/Model/CustomCategoryManager.swift:14-20 | after saving, the name is listed; membership is the old list plus the name; the old list is kept as a prefix and grows by at most one; the list is unchanged exactly when the name was present |
| CustomCategories.WithCategoryIdempotent | QuickNoteApp/Home/Model/CustomCategoryManager.swift:16 | saving a name twice is saving it once |
| CustomCategories.WithCategoryKeepsNoDuplicates | QuickNoteApp/Home/Model/CustomCategoryManager.swift:15-19 | a duplicate-free list stays duplicate-free |
| CustomCategories.CustomCategoryManager.Categories | QuickNoteApp/Home/Model/CustomCategoryManager.swift:22-24 | the list is empty when nothing has been stored |
| CustomCategories.CustomCategoryManager.FetchCategories | QuickNoteApp/Home/Model/CustomCategoryManager.swift:22-24 | returns the list stored under the key, or the empty list when there is none |
| CustomCategories.CustomCategoryManager.SaveCategory | QuickNoteApp/Home/Model/CustomCategoryManager.swift:14-20 | the stored list becomes `WithCategory` of the old one; a present name causes no write; otherwise only the key's entry is rewritten |
| CustomCategories.SaveTwiceIsSaveOnce | QuickNoteApp/Home/Model/CustomCategoryManager.swift:14-20 | two saves of one name leave the list as a single save does, with the name present |
| Waveform.Clamp | QuickNoteApp/VoiceNote/View/Waveform.swift:45 | the value lies in [0.1, 1.0], is unchanged inside that range and saturates outside it |
| Waveform.MaxBars | QuickNoteApp/VoiceNote/View/Waveform.swift:50 | `Int(width / totalBarWidth)`, the whole part of the quotient |
| Waveform.AfterAdd | QuickNoteApp/VoiceNote/View/Waveform.swift:44-56 | the buffer is a suffix of the old buffer plus the clamped level; a zero width grows it by one; a positive width caps it at `maxBars`; the newest sample is last |
| Waveform.WaveformLineView.constructor | QuickNoteApp/VoiceNote/View/Waveform.swift:6-15 | bar width 4, gap 5, empty buffer |
| Waveform.WaveformLineView.Reset | QuickNoteApp/VoiceNote/View/Waveform.swift:33-36 | the buffer is emptied |
| Waveform.WaveformLineView.SetLevels | QuickNoteApp/VoiceNote/View/Waveform.swift:39-42 | the buffer is replaced verbatim, with no clamping and no trimming |
| Waveform.WaveformLineView.AddLevel | QuickNoteApp/VoiceNote/View/Waveform.swift:44-56 | the buffer becomes `AfterAdd` of the old one |
| Waveform.AddKeepsClamped | QuickNoteApp/VoiceNote/View/Waveform.swift:45-53 | adding a level to a clamped buffer leaves every level in [0.1, 1.0] |
| Waveform.DefaultPitchFits | QuickNoteApp/VoiceNote/View/Waveform.swift:6-7 | with the default bar width and gap, `maxBars` is `width / 9` |
| Waveform.NarrowViewKeepsNothing | QuickNoteApp/VoiceNote/View/Waveform.swift:49-53 | a view narrower than one bar pitch ends with an empty buffer |
| Waveform.ClampAll | QuickNoteApp/VoiceNote/View/Waveform.swift:45 | each output is the clamp of the input at the same index |
| Waveform.SlidingWindow | QuickNoteApp/VoiceNote/View/Waveform.swift:44-53 | feeding any levels one by one to a buffer of positive width leaves exactly the most recent `maxBars` clamped samples, in arrival order |
| Waveform.AddAllIsFeed | QuickNoteApp/VoiceNote/View/Waveform.swift:44-53 | adding levels one by one to a view of positive width is feeding them into a window of `maxBars` samples |
| Waveform.FeedKeepsLast | QuickNoteApp/VoiceNote/View/Waveform.swift:45-52 | feeding levels into a window of `k` samples that holds at most `k` keeps the last `k` of the old samples followed by the clamped new ones |
| Waveform.KeepLastOfPrefix | QuickNoteApp/VoiceNote/View/Waveform.swift:51-52 | trimming before appending and trimming after keep the same window |
| CoreDataStore.EncodeLevels | QuickNoteApp/Utility/CoreData/CoreDataManager.swift:50 | the encoding is one bracketed JSON array |
| CoreDataStore.DecodeLevels | QuickNoteApp/VoiceNote/Controller/VoiceNoteViewController.swift:46-47 | `JSONDecoder().decode([Float].self, from:)`: whatever decodes is exactly the encoding of the decoded levels, so nothing but the encoder's output decodes; LevelsRoundTrip gives the other direction |
| CoreDataStore.LevelsRoundTrip | QuickNoteApp/Utility/CoreData/CoreDataManager.swift:50-52 | decoding the stored waveform data gives back exactly the levels passed in |
| CoreDataStore.LevelsCanonical | QuickNoteApp/Utility/CoreData/CoreDataManager.swift:50-52 | any data that decodes to some levels is exactly the encoding of those levels |
| CoreDataStore.RemoveObject | QuickNoteApp/Utility/CoreData/CoreDataManager.swift:65 | exactly the records of other objects remain, and nothing changes when the object is absent |
| CoreDataStore.RemoveKeepsDistinct | QuickNoteApp/Utility/CoreData/CoreDataManager.swift:65 | deleting keeps object identities distinct and adds no record |
| CoreDataStore.RemoveKeepsValid | QuickNoteApp/Utility/CoreData/CoreDataManager.swift:65 | deleting keeps the store's invariant: distinct object identities, all below the next identity |
| CoreDataStore.DeleteRemovesOnlyThatNote | QuickNoteApp/Utility/CoreData/CoreDataManager.swift:65 | after deletion the object is gone, and exactly one record fewer remains when it was present |
| CoreDataStore.SetTitleOf | QuickNoteApp/VoiceNote/Controller/VoiceNoteViewController.swift:335 | only the records of that object get the new title; every other record and attribute is unchanged |
| CoreDataStore.SetDescriptionOf | QuickNoteApp/VoiceNote/Controller/VoiceNoteViewController.swift:334 | only the records of that object get the new description; every other record and attribute is unchanged |
| CoreDataStore.Insert | QuickNoteApp/Utility/CoreData/CoreDataManager.swift:76 | inserting adds exactly the one record |
| CoreDataStore.InsertSorted | QuickNoteApp/Utility/CoreData/CoreDataManager.swift:76 | inserting into a newest-first list keeps it newest first |
| CoreDataStore.SortNewestFirst | QuickNoteApp/Utility/CoreData/CoreDataManager.swift:73-79 | the result is ordered by `createdAt`, non-increasing, and is a permutation of the records |
| CoreDataStore.CoreDataManager.constructor | QuickNoteApp/Utility/CoreData/CoreDataManager.swift:14-37 | the context opens on the saved records and the files on disk, with no pending changes |
| CoreDataStore.CoreDataManager.Lookup | QuickNoteApp/VoiceNote/Controller/VoiceNoteViewController.swift:27 | finds the context's record of an object, or reports that the context has none |
| CoreDataStore.CoreDataManager.SaveContext | QuickNoteApp/Utility/CoreData/CoreDataManager.swift:102-110 | with no changes nothing is written; a successful save commits the records and clears the flag; a failed save is swallowed and leaves the changes pending |
| CoreDataStore.CoreDataManager.InsertObject | QuickNoteApp/Utility/CoreData/CoreDataManager.swift:41 | a new object with a fresh identity and all attributes unset except the creation date |
| CoreDataStore.CoreDataManager.SaveVoiceNoteWithMetadata | QuickNoteApp/Utility/CoreData/CoreDataManager.swift:40-54 | exactly one record is appended, with the file name, duration, date, category as title, description and encoded levels, and no id; other records and files are unchanged; the save outcome is as in `SaveContext` |
| CoreDataStore.CoreDataManager.SaveVoiceNote | QuickNoteApp/Utility/CoreData/CoreDataManager.swift:85-98 | exactly one record is appended, with a fresh id held by no other record, and with no title or description |
| CoreDataStore.CoreDataManager.DeleteVoiceNote | QuickNoteApp/Utility/CoreData/CoreDataManager.swift:55-69 | the record is removed; the audio file named by the context's record of that object (or by the passed note when the context has none) is removed when removal succeeds, and a failed removal is ignored; no other record or file is touched; the save outcome is as in `SaveContext`, with changes pending when there were some or the record existed |
| CoreDataStore.StaleCopyUsesRecordFile | QuickNoteApp/Utility/CoreData/CoreDataManager.swift:57-61 | a copy of a note fetched earlier names the audio file of the context's record of that object, so deleting it removes that file and no other |
| CoreDataStore.CoreDataManager.DeleteObject | QuickNoteApp/Utility/CoreData/CoreDataManager.swift:65 | `context.delete`: the context keeps exactly the other records, in order, and has changes when it had some or held the record |
| CoreDataStore.CoreDataManager.FetchAllNotes | QuickNoteApp/Utility/CoreData/CoreDataManager.swift:73-84 | every record, newest first; a failed fetch gives the empty list |
| CoreDataStore.CoreDataManager.SetTitle | QuickNoteApp/VoiceNote/Controller/VoiceNoteViewController.swift:131 | the object's title is set in the context, which then has changes if it holds the object |
| CoreDataStore.CoreDataManager.SetNoteDescription | QuickNoteApp/VoiceNote/Controller/VoiceNoteViewController.swift:334 | the object's description is set in the context, which then has changes if it holds the object |
| VoiceNoteScreen.TimerLabel | QuickNoteApp/VoiceNote/Controller/VoiceNoteViewController.swift:365-369 | the label has eight characters: "00:", two decimal digits, ':', two decimal digits |
| VoiceNoteScreen.TimerLabelFields | QuickNoteApp/VoiceNote/Controller/VoiceNoteViewController.swift:366-368 | the label reads back as `(t mod 3600) / 60` minutes and `t mod 60` seconds of the whole seconds `t`, both below 60 |
| VoiceNoteScreen.TimerLabelHourly | QuickNoteApp/VoiceNote/Controller/VoiceNoteViewController.swift:366-368 | hours are never shown: the label repeats every 3600 seconds |
| VoiceNoteScreen.NormalizedLevel | QuickNoteApp/VoiceNote/Controller/VoiceNoteViewController.swift:358 | each normalised level lies in [0.1, 1.0] |
| VoiceNoteScreen.NormalizedLevelShape | QuickNoteApp/VoiceNote/Controller/VoiceNoteViewController.swift:358 | 0 dB and above show full scale, -54 dB and below show the floor, and a louder reading never shows lower |
| VoiceNoteScreen.Compress | QuickNoteApp/VoiceNote/Controller/VoiceNoteViewController.swift:320 | the stride-5 down-sampling keeps ceil(n / 5) levels; CompressKeepsEveryFifth says which |
| VoiceNoteScreen.CompressKeepsEveryFifth | QuickNoteApp/VoiceNote/Controller/VoiceNoteViewController.swift:320 | compression keeps indices 0, 5, 10, ...: ceil(n / 5) samples, the i-th being sample 5i |
| VoiceNoteScreen.DescriptionText | QuickNoteApp/VoiceNote/Controller/VoiceNoteViewController.swift:313 | "No description" when the text is nil or empty, and the text itself otherwise |
| VoiceNoteScreen.DefaultFoldersAreFirstCategories | QuickNoteApp/VoiceNote/Controller/VoiceNoteViewController.swift:112 | the four default folders are the raw values of the first four folder categories |
| VoiceNoteScreen.PresentTitles | QuickNoteApp/VoiceNote/Controller/VoiceNoteViewController.swift:114 | exactly the non-nil titles remain; with PresentTitlesCounts, each as often as it occurs |
| VoiceNoteScreen.WithoutDefaults | QuickNoteApp/VoiceNote/Controller/VoiceNoteViewController.swift:115 | exactly the names that are not default folders remain; with WithoutDefaultsCounts, each as often as it occurs |
| VoiceNoteScreen.ShareMenuFolders | QuickNoteApp/VoiceNote/Controller/VoiceNoteViewController.swift:112-116 | the four defaults come first, in order; after them come exactly the non-nil, non-default saved titles in fetch order (`WithoutDefaults(PresentTitles(...))`) |
| VoiceNoteScreen.PresentTitlesCounts | QuickNoteApp/VoiceNote/Controller/VoiceNoteViewController.swift:114 | a title occurs in the result as often as the fetched folders carry it |
| VoiceNoteScreen.WithoutDefaultsCounts | QuickNoteApp/VoiceNote/Controller/VoiceNoteViewController.swift:115 | a default name occurs zero times, any other name as often as in the input |
| VoiceNoteScreen.ShareMenuCounts | QuickNoteApp/VoiceNote/Controller/VoiceNoteViewController.swift:112-116 | the menu lists each default once and every other folder title as often as the fetched folders carry it |
| VoiceNoteScreen.DefaultsListedOnce | QuickNoteApp/VoiceNote/Controller/VoiceNoteViewController.swift:112-116 | no default folder appears twice |
| VoiceNoteScreen.ExtraFoldersInOrder | QuickNoteApp/VoiceNote/Controller/VoiceNoteViewController.swift:114-115 | the saved folders keep fetch order: the filtering works piece by piece over any split |
| VoiceNoteScreen.VoiceNoteViewController.constructor | QuickNoteApp/VoiceNote/Controller/VoiceNoteViewController.swift:14-24 | a fresh screen: no session, no recorder, category "Personal", label "00:00:00", timers stopped, record button enabled |
| VoiceNoteScreen.VoiceNoteViewController.LoadVoiceNoteData | QuickNoteApp/VoiceNote/Controller/VoiceNoteViewController.swift:25-59 | shows the note's description (or "No Name"), folder (or "Personal"), duration (or "00:00:00") and, when the data decodes, its waveform; recording is disabled; when the context no longer holds the note, the same fallbacks are shown and recording is disabled; without a note nothing changes |
| VoiceNoteScreen.VoiceNoteViewController.StartNewRecordingSession | QuickNoteApp/VoiceNote/Controller/VoiceNoteViewController.swift:287-310 | the file name becomes the UUID plus ".m4a"; when the recorder starts, it records, the waveform and accumulated time are reset, the clock starts, the recorder's file joins the documents directory and a timer pair is started (a pair still running is orphaned); otherwise nothing else changes |
| VoiceNoteScreen.VoiceNoteViewController.HandleTouchDown | QuickNoteApp/VoiceNote/Controller/VoiceNoteViewController.swift:263-276 | the first press clears the samples and starts a session, which is active even if the recorder fails; later presses only resume the recorder, restart the clock and start a timer pair, orphaning a pair still running after a cancelled touch |
| VoiceNoteScreen.VoiceNoteViewController.StartTimers | QuickNoteApp/VoiceNote/Controller/VoiceNoteViewController.swift:341-347 | a new pair is scheduled and held; a held pair still running becomes orphaned, beyond the reach of `stopTimers` |
| VoiceNoteScreen.VoiceNoteViewController.HandleTouchUp | QuickNoteApp/VoiceNote/Controller/VoiceNoteViewController.swift:278-285 | the recorder pauses, the time since the clock started is added to the accumulated time, which never decreases, and the held timer pair stops (orphaned pairs keep firing) |
| VoiceNoteScreen.VoiceNoteViewController.RecordingTimerFired | QuickNoteApp/VoiceNote/Controller/VoiceNoteViewController.swift:342-345 | while any timer pair fires, the held one or an orphaned one, the label shows the accumulated time plus the time since the clock started |
| VoiceNoteScreen.VoiceNoteViewController.UpdateWaveform | QuickNoteApp/VoiceNote/Controller/VoiceNoteViewController.swift:354-363 | while the recorder records, the normalised reading is appended to the samples and added to the waveform view; otherwise nothing changes |
| VoiceNoteScreen.VoiceNoteViewController.FinalizeAndSaveRecording | QuickNoteApp/VoiceNote/Controller/VoiceNoteViewController.swift:312-339 | an active session is saved as one new note (file, label, every fifth sample, folder, description), appended after the unchanged earlier notes, which becomes the screen's note, and the session ends; otherwise an existing note gets only the description and folder, then a save, and without a note the store is untouched; the save outcome is as in `SaveContext`; a refresh is posted either way |
| VoiceNoteScreen.VoiceNoteViewController.SaveNewRecording | QuickNoteApp/VoiceNote/Controller/VoiceNoteViewController.swift:315-330 | the recorder stops, the timers stop, one new note (file, label, every fifth sample, folder, description) is appended after the earlier notes with the next identity, and becomes the screen's note; the save outcome is that of a pending change; the session ends |
| VoiceNoteScreen.VoiceNoteViewController.UpdateSavedNote | QuickNoteApp/VoiceNote/Controller/VoiceNoteViewController.swift:331-335 | the saved note gets the description and the folder as title, no other record changes, no file or identity changes, and the save outcome is as in `SaveContext` |
| VoiceNoteScreen.VoiceNoteViewController.MoveToFolder | QuickNoteApp/VoiceNote/Controller/VoiceNoteViewController.swift:123-133 | the chosen folder becomes the screen's category and, for a saved note, the note's title, followed by a save whose outcome is as in `SaveContext`; without a saved note the store is untouched |
| VoiceNoteScreen.VoiceNoteViewController.ViewWillDisappear | QuickNoteApp/VoiceNote/Controller/VoiceNoteViewController.swift:207-215 | leaving mid-session saves the recording exactly as `FinalizeAndSaveRecording` does: the same new note appended after the earlier notes, the same save outcome, recorder and timers stopped; otherwise nothing changes |
| VoiceNoteScreen.VoiceNoteViewController.DeleteCurrentNote | QuickNoteApp/VoiceNote/Controller/VoiceNoteViewController.swift:150-162 | the screen's note, if the context holds it, is removed together with the audio file its record names (when removal succeeds), then saved, with the object-id counter unchanged; without a note, or when the context no longer holds it, the store is unchanged |
| FolderDetail.VoiceInFolder | QuickNoteApp/Folder/FolderDetailViewController.swift:69 | exactly the voice notes whose title equals the folder name, character for character |
| FolderDetail.PlainInFolder | QuickNoteApp/Folder/FolderDetailViewController.swift:70 | exactly the plain notes whose category equals the folder name, character for character |
| FolderDetail.VoiceFilterCounts | QuickNoteApp/Folder/FolderDetailViewController.swift:69 | every matching voice note is kept as often as it occurs, and nothing else |
| FolderDetail.PlainFilterCounts | QuickNoteApp/Folder/FolderDetailViewController.swift:70 | every matching plain note is kept as often as it occurs, and nothing else |
| FolderDetail.VoiceFilterKeepsOrder | QuickNoteApp/Folder/FolderDetailViewController.swift:69 | filtering keeps fetch order |
| FolderDetail.PlainFilterKeepsOrder | QuickNoteApp/Folder/FolderDetailViewController.swift:70 | filtering keeps fetch order |
| FolderDetail.FolderItems | QuickNoteApp/Folder/FolderDetailViewController.swift:69-77 | the matching voice notes in order, then the matching plain notes in order; the length is the sum of the two filter counts |
| FolderDetail.FolderItemsMembership | QuickNoteApp/Folder/FolderDetailViewController.swift:69-77 | an item is listed exactly when it is a voice note titled with the folder or a plain note of that category |
| FolderDetail.FolderDetailViewController.constructor | QuickNoteApp/Folder/FolderDetailViewController.swift:164-167 | the title label shows the folder's title and the list starts empty |
| FolderDetail.FolderDetailViewController.LoadNotesForThisFolder | QuickNoteApp/Folder/FolderDetailViewController.swift:61-82 | without a folder nothing changes; otherwise the list becomes `FolderItems` of the fetched voice notes (every record, newest first) and the plain notes, and the title label shows the folder |
| FolderDetail.FolderDetailViewController.NumberOfItems | QuickNoteApp/Folder/FolderDetailViewController.swift:185-187 | the item count is the list's length |
| FolderDetail.FolderDetailViewController.UpdateSort | QuickNoteApp/Folder/FolderDetailViewController.swift:142-146 | called only from the sort menu (line 116) with one of its four titles (line 113); the label shows that title, and nothing else changes, so the list keeps its order |
| FolderDetail.FolderDetailViewController.DeleteItem | QuickNoteApp/Folder/FolderDetailViewController.swift:223-233 | a voice item goes to the voice delete: its record and the audio file of the context's record of that object are removed, the save outcome is as in `SaveContext`, and it disappears from the reloaded list; the object-id counter is unchanged; a plain item goes to the plain-note store and the voice store is untouched; then the list is reloaded and the title becomes the folder name |

## Left out

- IconMapper.LowerChar: lowercases ASCII letters only. Foundation's Unicode
  `lowercased()` also maps letters such as 'É' and the Kelvin sign (U+212A), and can
  change the length of a string. The Kelvin sign lowercases to 'k', so "BOO\u{212A}"
  matches "book" in the app but not in the model.
- HexColor.FromHex: counts code points where Swift's `count` counts grapheme clusters.
  A string where the two differ contains a character that is not a hex digit, so it fails
  to parse either way and the colour is the same.
- The colour channels are integers 0..255, without the division by 255.0 into floating
  point.
- Floating point in general: levels, powers, times and the bar pitch are exact `real`
  numbers, so Float rounding, NaN and infinity are not modelled. In particular a JSON
  encoding failure, which only happens for non-finite floats, cannot occur.
- JSON text: waveform data is a sequence of tokens (brackets, separators, numbers),
  not bytes. Number formatting is not modelled.
- CustomCategories.CustomCategoryManager.FetchCategories: takes the stored value to be a
  list of strings. `stringArray(forKey:)` also gives nil when the key holds a value of
  another type, and that case is not modelled.
- The clock is a parameter. `HandleTouchUp` and `RecordingTimerFired` require the current
  time to be no earlier than the session clock's start, i.e. a clock that does not run
  backwards.
- CoreDataStore.CoreDataManager.SaveVoiceNote: requires the fresh UUID to differ from every
  stored id. UUID generation is random and is not modelled.
- Timers are modelled by a flag for the held pair and a count of orphaned pairs, plus one
  method per kind of firing. `.touchCancel` is not wired to `handleTouchUp`, so a touch-down
  after a cancelled touch orphans the running pair, which then fires until the screen goes
  away; the model keeps such pairs firing for as long as it runs. Their 0.1 s period, `DispatchQueue` hops and run-loop scheduling are not
  modelled. `UpdateWaveform` adds the level to the view at once, not in a later main-queue
  block.
- AVFoundation is not modelled: audio session set-up, the recorder, metering and the
  microphone permission. The recorder is a four-state value, its creation succeeds or
  fails by a parameter, and the meter reading is a parameter. A recorder that starts
  adds its file to the documents directory at once; the audio written into it is not
  modelled.
- Alerts, navigation (`navigateBack`, `popViewController`), tab-bar hiding, animations,
  date-label formatting, keyboard handling and all layout are not modelled. Saving
  through the share menu is modelled as `FinalizeAndSaveRecording`, which the confirm
  alert calls.
- The plain-note store and the folder store (`fetchAllPlainNotes`, `deletePlainNote`,
  `fetchAllFolders`, `createFolder`) are not part of the shown `CoreDataManager`. Plain
  notes and folder titles are parameters. A plain delete is recorded in `plainDeletes`,
  the list of notes handed to that store. The folder screen's create-folder callback is
  not modelled.
- The shown `CoreDataManager` keeps `saveContext` private, and its five-argument
  `saveVoiceNote` returns nothing, while the recording screen calls `saveContext` and
  keeps `saveVoiceNote`'s result. The model makes `SaveContext` public and takes the new
  note to be the record just appended.
- `WaveformLineView.draw` and `setNeedsDisplay` are not modelled.
- `AudioManager` playback from the folder screen's play button is not modelled, nor its
  `stop()` on leaving the screen.
- Managed objects are references shared by every holder. The model gives each record an
  object identity (`objectId`). The recording screen holds that identity. The folder
  screen holds copies of the records it fetched, and the store reads a deleted note's
  attributes from its own record of that identity, as a managed object would.
- CustomCategories.WithCategory: compares names character by character (code points).
  Swift's `contains` uses Unicode canonical equivalence, so a saved "Cafe\u{301}" keeps
  "Caf\u{E9}" out of the list in the app but not in the model. The two agree on names in
  the same normalisation form, such as names typed on one keyboard.
- FolderDetail.VoiceInFolder: matches the title to the folder name character by
  character, where Swift's `==` uses canonical equivalence, as for `WithCategory`.
- FolderDetail.PlainInFolder: matches the category to the folder name character by
  character, where Swift's `==` uses canonical equivalence, as for `WithCategory`.
- VoiceNoteScreen.VoiceNoteViewController.DeleteCurrentNote: when the context no longer
  holds the screen's note, the model deletes nothing. The app would still hand the deleted
  object to `deleteVoiceNote` and try to remove the file it names.
- VoiceNoteScreen.VoiceNoteViewController.LoadVoiceNoteData: when the context no longer
  holds the screen's note (the folder screen deleted it), the model reads the held object
  as having no attributes, so the labels show the "No Name", "Personal" and "00:00:00"
  fallbacks and the waveform is kept. The app still reads the old object, whose attributes
  may keep their last values until the deletion is saved.
- The hidden duplicate `Home/.Model/FolderModelCategory.swift` is not part of this model.

## Findings

| source | as written | input that shows it | evidently intended | confidence | as-written member | corrected member |
|---|---|---|---|---|---|---|
| QuickNoteApp/Utility/HexColorExtension.swift:18-19 | the guard accepts any six characters that `Int(_:radix: 16)` parses, and that parser takes a leading '+' or '-' | "-00001" parses as -1; its bytes are all 0xFF, so the colour is white instead of the black fallback | six hex digits, as the doc comment at line 12 describes, with everything else black | medium, not executed | HexColor.SignedInputParses | HexColor.FromHexDigits |
