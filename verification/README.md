# Echo — a verified model of its interactive core

Echo is a memory companion for people living with memory loss. A React
front end lets the user record spoken memories, add photo or video
"moments" and written notes, browse them in a memory journal, keep dated
reminders, and watch a simulated "Listen to ECHO" live-recognition feed. A
FastAPI back end transcribes speech, recognises faces and labels emotions.
On top of those it applies a set of plain decision rules:

- user preferences and a face-role table;
- a once-a-day sleep nudge;
- keyword intents for voice commands;
- file-type routing for uploads;
- canned replies per emotion.

Streaming helpers keep bounded histories of audio chunks, emotions and
faces.

This project models that core in Dafny and proves what it promises:

- **Modal components.** Each one is a `class` whose fields are the
  component's state. Its methods are the event handlers, and they state the
  whole new state.
  - The rendering and list logic behind them is pure functions: filtering,
    stable sorting, `formatTime`, and the reminder list updates.
  - Lemmas about those functions state the properties: sorted and a
    permutation, each entry shown exactly when its tab matches, ids kept
    unique, the clock text reading back as the timer value, and the
    recognition feed following its four-step cycle.
- **Streaming trackers** (`Realtime`). Each Python `deque(maxlen=n)` is a
  `seq` field, and a ghost field records everything ever appended to it.
  - The invariant is that the deque is always the last `n` elements of what
    was appended.
  - The dominant-emotion pass is a loop proved against a specification of
    weighted scores and Python's first-maximum rule.
  - The name table is proved first-label-wins. The summary's labels are
    proved last-label-wins.
- **Back-end rules** (`Backend`). The global preferences, roles and
  last-nudge date form a `Server` class.
  - Intent selection, extension parsing, file classification, truncation
    and the response map are pure functions.
  - Lemmas cover:
    - `/set-prefs` keeps the sleep hour a clock hour, while the preferences
      file loaded at start-up is taken unchecked;
    - at most one nudge per day, and exactly when it is due;
    - the intent priority;
    - an extension read back from a file name;
    - disjoint extension lists;
    - idempotent truncation.

The two copies of `RecordMemoryModal.js`, and the two copies of
`AddWriteUpModal.js`, have the same handlers, so each pair is modelled once
(`RecordMemory`, `AddWriteUp`). The table cites both copies.

Files:

- `base.dfy`: Option, filter, stable sort, Python slices, bounded deques.
- `text.dfy`: trim/strip, lower, substring test, decimal numerals, `padStart`.
- One file per core source file: `listen_to_echo.dfy`, `reminders.dfy`,
  `memory_journal.dfy`, `record_memory.dfy`, `add_moment.dfy`,
  `add_write_up.dfy`, `app_shell.dfy`, `realtime.dfy`, `backend.dfy`.

Floating-point quantities become integers:

- emotion confidences are in hundredths;
- emotion weights are in tenths, so weighted scores compare exactly;
- the trend threshold of 0.1 on a ten-entry average is 100 hundredths on the
  ten-entry sum.

Switching live recognition back on does not show "listening" at once: the
status stays `idle` until the first timer tick
(`ListenToEcho.ReenabledStaysIdleUntilTick`).

## Model

| member | source | states |
|---|---|---|
| Base.Filter | frontend/src/modals/RemindersModal.js:13 | `Array.filter`: every kept element satisfies the predicate and came from the input; every input element that satisfies it is kept |
| Base.FilterConcat | frontend/src/modals/MemoryJournalModal.js:13-20 | filtering keeps relative order: it distributes over concatenation |
| Base.FilterCount | frontend/src/modals/MemoryJournalModal.js:13-20 | a kept element occurs exactly as often as in the input; a dropped one not at all |
| Base.InsertBy | frontend/src/modals/MemoryJournalModal.js:21-25 | inserting into a key-sorted list keeps it sorted and adds exactly that element |
| Base.SortBy | frontend/src/modals/RemindersModal.js:24 | the sort by an integer key returns a sorted permutation of its input |
| Base.InsertByTies | frontend/src/modals/MemoryJournalModal.js:21-25 | inserting puts the element in front of every element with the same key |
| Base.PassedHeadTies | backend_ml/realtime_utils.py:282 | the inductive step of `InsertByTies`: passing a head that is not a tie of the inserted element leaves the tie group as it was |
| Base.SortByStable | backend_ml/realtime_utils.py:282 | the sort is stable: the elements with any one key appear in their input order |
| Base.PySliceFrom | backend_ml/realtime_utils.py:128 | Python `s[start:]` with negative and out-of-range bounds: its length, and that it is a suffix |
| Base.Window | backend_ml/realtime_utils.py:99 | the last `cap` elements: `min(len, cap)` long and a suffix of the input |
| Base.WindowIsNegativeSlice | backend_ml/realtime_utils.py:128 | for `k >= 1`, `s[-k:]` is the window of size `k` |
| Base.BoundedAppend | backend_ml/realtime_utils.py:117 | `deque.append` with a `maxlen`: the new element is last, and the oldest is dropped only when full |
| Base.WindowAppend | backend_ml/realtime_utils.py:135-154 | appending to the window of `s` gives the window of `s + [x]`: the deque invariant |
| Text.Trim | frontend/src/modals/AddWriteUpModal.js:13 | `trim`/`strip`: the input minus a whitespace prefix and a whitespace suffix (`Text.StrippedOf`, `Text.StripsTo`); empty exactly when every character is whitespace; otherwise it starts and ends with non-whitespace; whitespace is `Text.IsJsSpace` for `trim` and `Text.IsPySpace` for `strip` |
| Text.TrimIsTheStrippedSlice | backend_ml/app.py:376 | the contract of `Trim` determines it: any slice with only whitespace around it and none at its ends is the trimmed text |
| Text.TrimStart | frontend/src/components/modals/AddWriteUpModal.js:13 | drops exactly a whitespace prefix, and what remains does not start with whitespace |
| Text.TrimEnd | frontend/src/components/modals/AddWriteUpModal.js:13 | drops exactly a whitespace suffix, and what remains does not end with whitespace |
| Text.PrefixThenSuffixStrips | frontend/src/modals/AddWriteUpModal.js:13 | dropping a whitespace prefix and then a whitespace suffix leaves a slice with only whitespace around it |
| Text.Lower | backend_ml/app.py:376 | `lower()` keeps the length and lowers each character |
| Text.TrimKeepsNoCapitals | backend_ml/app.py:376 | stripping a lowered text leaves no capital letter in it |
| Text.Contains | backend_ml/app.py:379 | `needle in hay` holds exactly when the needle occurs at some position |
| Text.DecimalDigits | frontend/src/modals/RecordMemoryModal.js:22 | `toString()` of a natural number: digits only, no leading zero, one digit exactly below 10 |
| Text.ParseDecimalDigits | frontend/src/components/modals/RecordMemoryModal.js:22 | reading the numeral back gives the number |
| Text.PadStart | frontend/src/modals/RecordMemoryModal.js:22 | `padStart(width, fill)`: the length, the original text at the end, fill characters before it |
| Text.ParsePadded | frontend/src/components/modals/RecordMemoryModal.js:22 | zero-padding keeps a numeral's value |
| Text.ParseZeros | frontend/src/modals/RecordMemoryModal.js:22 | any number of leading zeros keeps a numeral's value |
| ListenToEcho.CycleAt | frontend/src/components/modals/ListenToEchoModal.js:21-26 | the four-step cycle: never idle; listening on even steps, recognized only at step 1 |
| ListenToEcho.Mounted | frontend/src/components/modals/ListenToEchoModal.js:9-31 | on mount: recognition on, listening, and a timer running with counter 0 |
| ListenToEcho.AfterTick | frontend/src/components/modals/ListenToEchoModal.js:28-31 | a tick shows the cycle entry of the counter and advances it modulo 4; with no timer nothing changes |
| ListenToEcho.TickAdvancesCounter | frontend/src/components/modals/ListenToEchoModal.js:28-31 | a tick on a counter that is `a mod 4` shows the cycle entry of `a` and leaves the counter at `(a + 1) mod 4` |
| ListenToEcho.AfterToggle | frontend/src/components/modals/ListenToEchoModal.js:19-37 | the switch flips the flag; off clears the timer and shows idle; on starts a timer at 0 and keeps the status |
| ListenToEcho.AfterGotIt | frontend/src/components/modals/ListenToEchoModal.js:77 | "Got it" shows listening and leaves the counter and timer alone |
| ListenToEcho.AfterUnmount | frontend/src/components/modals/ListenToEchoModal.js:36 | unmounting clears the timer and changes nothing else |
| ListenToEcho.RunTicks | frontend/src/components/modals/ListenToEchoModal.js:28-31 | any number of ticks keeps the invariant, the switch and the timer |
| ListenToEcho.TicksFollowCycle | frontend/src/components/modals/ListenToEchoModal.js:21-31 | after `n` ticks the counter is `(start + n) mod 4` and the status is the cycle entry before it |
| ListenToEcho.FullCyclesReturnToListening | frontend/src/components/modals/ListenToEchoModal.js:27-31 | after switching on, every `4n` ticks the counter is 0 and the next tick shows listening |
| ListenToEcho.OneCycleFromMount | frontend/src/components/modals/ListenToEchoModal.js:19-31 | from mounting, ticks 1-4 show listening, recognized, listening, unknown |
| ListenToEcho.NoTimerNoChange | frontend/src/components/modals/ListenToEchoModal.js:32-36 | without a timer, no number of ticks changes the state |
| ListenToEcho.DisabledStaysIdle | frontend/src/components/modals/ListenToEchoModal.js:32-35 | after switching off, the status stays idle whatever ticks arrive |
| ListenToEcho.ReenabledStaysIdleUntilTick | frontend/src/components/modals/ListenToEchoModal.js:20-31 | switching off then on leaves the status idle until the first tick, which shows listening |
| ListenToEcho.ToggleTwiceRestoresSwitch | frontend/src/components/modals/ListenToEchoModal.js:57 | two toggles restore the switch |
| ListenToEcho.RecognitionSimulator.constructor | frontend/src/components/modals/ListenToEchoModal.js:9-10 | the component starts in the mounted state |
| ListenToEcho.RecognitionSimulator.Tick | frontend/src/components/modals/ListenToEchoModal.js:28-31 | the interval callback performs `AfterTick` in place |
| ListenToEcho.RecognitionSimulator.ToggleLiveRecognition | frontend/src/components/modals/ListenToEchoModal.js:57 | the switch and its effect perform `AfterToggle` in place |
| ListenToEcho.RecognitionSimulator.GotIt | frontend/src/components/modals/ListenToEchoModal.js:77 | the "Got it" button performs `AfterGotIt` in place |
| ListenToEcho.RecognitionSimulator.Unmount | frontend/src/components/modals/ListenToEchoModal.js:36 | the effect cleanup performs `AfterUnmount` in place |
| Reminders.DeleteById | frontend/src/modals/RemindersModal.js:13 | after deleting, no reminder has that id; every reminder with another id remains |
| Reminders.DeleteKeepsOthers | frontend/src/modals/RemindersModal.js:13 | deleting keeps other reminders exactly as often as they occurred and keeps their order |
| Reminders.ReplaceById | frontend/src/modals/RemindersModal.js:17 | saving an edit keeps length and ids; each element with the draft's id becomes the draft; the test between editing and adding is `Reminders.HasId` (RemindersModal.js:16) |
| Reminders.AppendNew | frontend/src/modals/RemindersModal.js:19 | saving a new draft keeps the list and appends the draft under the fresh id |
| Reminders.ReplaceKeepsIdsUnique | frontend/src/modals/RemindersModal.js:16-17 | saving an edit cannot create a duplicate id; definition: `Reminders.UniqueIds` (no id carried by two reminders) |
| Reminders.ReplaceChangesOnlyThatReminder | frontend/src/modals/RemindersModal.js:17 | with unique ids, an edit replaces exactly the one reminder carrying the id |
| Reminders.AppendKeepsIdsUnique | frontend/src/modals/RemindersModal.js:19 | appending under an unused id keeps ids unique |
| Reminders.Chronological | frontend/src/modals/RemindersModal.js:24 | the list view is a permutation of the reminders in non-decreasing date order |
| Reminders.RemindersEditor.constructor | frontend/src/modals/RemindersModal.js:6-9 | starts in the list view with no draft |
| Reminders.RemindersEditor.SortedView | frontend/src/modals/RemindersModal.js:24 | what the list renders: a date-sorted permutation of the reminders |
| Reminders.RemindersEditor.AddNew | frontend/src/modals/RemindersModal.js:11 | an empty draft with no id dated now, and the form is shown |
| Reminders.RemindersEditor.Edit | frontend/src/modals/RemindersModal.js:12 | the chosen reminder becomes the draft, and the form is shown |
| Reminders.RemindersEditor.Delete | frontend/src/modals/RemindersModal.js:13 | the list becomes `DeleteById` of the old list; view and draft unchanged |
| Reminders.RemindersEditor.SetText | frontend/src/modals/RemindersModal.js:64 | only the draft's text changes |
| Reminders.RemindersEditor.SetDatetime | frontend/src/modals/RemindersModal.js:68 | only the draft's date-time changes |
| Reminders.RemindersEditor.Cancel | frontend/src/modals/RemindersModal.js:72 | back to the list; list and draft unchanged |
| Reminders.RemindersEditor.Save | frontend/src/modals/RemindersModal.js:14-23 | saves exactly when text and date-time are non-empty; then replaces by id or appends under a fresh id and returns to the list, otherwise nothing changes; definitions: `Reminders.CanSave` (RemindersModal.js:14) and `Reminders.HasId` (line 16) |
| MemoryJournal.FilteredAndSorted | frontend/src/modals/MemoryJournalModal.js:13-25 | the entries shown are a permutation of those matching the tab, in date order newest or oldest first |
| MemoryJournal.SortedDates | frontend/src/modals/MemoryJournalModal.js:21-25 | sorting by the comparator's key orders the dates in the chosen direction; definition: `MemoryJournal.SortKey` (MemoryJournalModal.js:21-25, the date, negated for newest first) |
| MemoryJournal.ShownAreMatching | frontend/src/modals/MemoryJournalModal.js:14-20 | every shown entry matches the tab and comes from the journal |
| MemoryJournal.ShownExactlyWhenMatching | frontend/src/modals/MemoryJournalModal.js:13-20 | an entry is shown exactly as often as it occurs when it matches the tab, otherwise not at all; definition: `MemoryJournal.MatchesTab` (MemoryJournalModal.js:14-20) |
| MemoryJournal.AllTabShowsEverything | frontend/src/modals/MemoryJournalModal.js:15 | "All" shows every entry |
| MemoryJournal.KindTabsSelectKind | frontend/src/modals/MemoryJournalModal.js:16-18 | "Speech", "Moments" and "Write Ups" show exactly the speech, moment and write-up entries |
| MemoryJournal.UnknownTabShowsNothing | frontend/src/modals/MemoryJournalModal.js:19 | any other tab shows nothing |
| MemoryJournal.JournalView.constructor | frontend/src/modals/MemoryJournalModal.js:8-10 | starts on "All", newest first, dropdown closed |
| MemoryJournal.JournalView.Shown | frontend/src/modals/MemoryJournalModal.js:13-25 | the rendered list is the sorted permutation of the active tab's entries |
| MemoryJournal.JournalView.SelectTab | frontend/src/modals/MemoryJournalModal.js:45 | a tab click sets the tab only |
| MemoryJournal.JournalView.ToggleSortDropdown | frontend/src/modals/MemoryJournalModal.js:65 | the sort button flips the dropdown only |
| MemoryJournal.JournalView.ChooseSortOrder | frontend/src/modals/MemoryJournalModal.js:81-82 | an option sets the order and closes the dropdown |
| RecordMemory.TwoDigitField | frontend/src/modals/RecordMemoryModal.js:22 | a padded field is at least two digits, exactly two below 100, starts with a non-zero digit from 10 on, and reads back as the number |
| RecordMemory.FormatTime | frontend/src/components/modals/RecordMemoryModal.js:22 | the clock text is minutes, ':' and two-digit seconds, reading back as `seconds / 60` and `seconds % 60`; five characters under 100 minutes; no leading zero from 10 minutes on |
| RecordMemory.ParseClock | frontend/src/modals/RecordMemoryModal.js:22 | the reference reading of an "M:SS" text: only texts with ':' before the last two characters parse |
| RecordMemory.FormatTimeRoundTrip | frontend/src/modals/RecordMemoryModal.js:22 | the displayed time reads back as the timer value, so different values never display alike |
| RecordMemory.ReadBack | frontend/src/components/modals/RecordMemoryModal.js:22 | parsing the formatted time returns the number of seconds |
| RecordMemory.FormatTimeShape | frontend/src/modals/RecordMemoryModal.js:22 | under 100 minutes the display is exactly "MM:SS" with the tens of seconds in 0-5 |
| RecordMemory.Recorder.constructor | frontend/src/modals/RecordMemoryModal.js:8-10 | idle, timer 0, empty title |
| RecordMemory.Recorder.Display | frontend/src/components/modals/RecordMemoryModal.js:60 | the time shown while recording reads back as the timer |
| RecordMemory.Recorder.Tick | frontend/src/components/modals/RecordMemoryModal.js:13-20 | the one-second interval counts only while recording |
| RecordMemory.Recorder.StartRecording | frontend/src/components/modals/RecordMemoryModal.js:24 | the record button moves to recording; timer and title kept |
| RecordMemory.Recorder.SetTitle | frontend/src/modals/RecordMemoryModal.js:57 | only the title changes |
| RecordMemory.Recorder.SaveRecording | frontend/src/modals/RecordMemoryModal.js:24-29 | always moves to saved; the untrimmed title is passed on exactly when it is not blank |
| RecordMemory.Recorder.ResetRecording | frontend/src/components/modals/RecordMemoryModal.js:33-37 | back to idle with timer 0 and an empty title |
| AddMoment.EmptyData | frontend/src/modals/AddMomentModal.js:11 | the empty form: no file and every field empty |
| AddMoment.WithField | frontend/src/modals/AddMomentModal.js:30 | the named field takes the value; the other fields and the file are kept |
| AddMoment.WithFieldLaws | frontend/src/modals/AddMomentModal.js:30 | writing back a field's own value changes nothing; the last write to a field wins |
| AddMoment.AcceptFor | frontend/src/modals/AddMomentModal.js:26 | the file filter is images exactly for "Photo", videos otherwise |
| AddMoment.MomentComposer.constructor | frontend/src/modals/AddMomentModal.js:8-13 | initial step, no type or preview, empty form, not saved |
| AddMoment.MomentComposer.CurrentView | frontend/src/modals/AddMomentModal.js:44-54 | the saved view wins over the step; otherwise the step picks the initial or details view |
| AddMoment.MomentComposer.HandleFileSelect | frontend/src/modals/AddMomentModal.js:15-22 | a chosen file is stored with its preview and the details form opens; a cancelled dialog changes nothing |
| AddMoment.MomentComposer.HandleUploadClick | frontend/src/modals/AddMomentModal.js:23-29 | remembers the type and sets the file filter |
| AddMoment.MomentComposer.HandleDataChange | frontend/src/modals/AddMomentModal.js:30 | the form becomes `WithField` of the old form |
| AddMoment.MomentComposer.HandleGoBack | frontend/src/modals/AddMomentModal.js:31 | back to the initial step, dropping file, preview and title but keeping the other fields |
| AddMoment.MomentComposer.HandleSaveMoment | frontend/src/modals/AddMomentModal.js:32-37 | always shows saved; title and type are passed on exactly when the title is not blank |
| AddMoment.MomentComposer.HandleNewMoment | frontend/src/modals/AddMomentModal.js:38 | back to an empty initial form, not saved; the type is kept |
| AddWriteUp.CanSaveMeansVisibleText | frontend/src/modals/AddWriteUpModal.js:13 | saving is allowed exactly when title and content each hold a non-whitespace character; definition: `AddWriteUp.CanSave` (AddWriteUpModal.js:13); blankness is `Text.IsBlank` (an empty `trim()`) |
| AddWriteUp.WriteUpEditor.constructor | frontend/src/components/modals/AddWriteUpModal.js:8-10 | empty title and content, not saved |
| AddWriteUp.WriteUpEditor.SetTitle | frontend/src/modals/AddWriteUpModal.js:53 | only the title changes |
| AddWriteUp.WriteUpEditor.SetContent | frontend/src/components/modals/AddWriteUpModal.js:57 | only the content changes |
| AddWriteUp.WriteUpEditor.Save | frontend/src/modals/AddWriteUpModal.js:12-17 | saves and shows saved exactly when both texts are non-blank, passing them untrimmed; texts are kept |
| AddWriteUp.WriteUpEditor.AddNew | frontend/src/components/modals/AddWriteUpModal.js:19-23 | back to an empty, unsaved form |
| AppShell.Toggled | frontend/src/App.js:14 | toggling yields "dark" or "light", and "light" exactly from "dark" |
| AppShell.ToggleTwice | frontend/src/App.js:14 | on the two themes, toggling twice is the identity; anything else becomes "dark" |
| AppShell.Rendered | frontend/src/App.js:20-34 | the team page exactly for "team", the landing page otherwise |
| AppShell.App.constructor | frontend/src/App.js:10-11 | dark theme on the landing page |
| AppShell.App.View | frontend/src/App.js:20-34 | the page rendered for the current state |
| AppShell.App.ToggleTheme | frontend/src/App.js:14 | the theme changes to the other one; the page is kept |
| AppShell.App.TeamClick | frontend/src/App.js:27 | shows the team page; the theme is kept |
| AppShell.App.Back | frontend/src/App.js:28 | shows the landing page; the theme is kept |
| AppShell.App.GetStarted | frontend/src/App.js:40 | the landing "Get Started" handler changes nothing |
| Realtime.ChunkMetadata | backend_ml/realtime_utils.py:107-114 | the caller's metadata plus timestamp, chunk size and sample rate, which override; other entries kept |
| Realtime.AudioProcessor.constructor | backend_ml/realtime_utils.py:94-99 | stores rate and chunk size, with an empty buffer |
| Realtime.AudioProcessor.ProcessAudioChunk | backend_ml/realtime_utils.py:105-117 | appends the chunk with its metadata to the bounded buffer; the buffer stays the last 1000 chunks received |
| Realtime.AudioProcessor.GetAudioBuffer | backend_ml/realtime_utils.py:126-128 | `list(buffer)[-max_chunks:]` for positive, zero and negative `max_chunks` |
| Realtime.RecentChunks | backend_ml/realtime_utils.py:126-128 | for `n >= 1`, the last `min(n, 1000)` chunks ever received |
| Realtime.WindowOfWindow | backend_ml/realtime_utils.py:128 | the last `n` of the last `cap` is the last `min(n, cap)` |
| Realtime.Weight | backend_ml/realtime_utils.py:136-143 | the emotion weights in tenths, 1.0 for unlisted emotions, all between 0.5 and 1.3 |
| Realtime.KindsFacts | backend_ml/realtime_utils.py:161-171 | the dictionary's key order lists exactly the detected emotions, each once; definition: `Realtime.Kinds` (the emotions in order of first detection) |
| Realtime.KindsStep | backend_ml/realtime_utils.py:169-171 | one more detection appends a new emotion to the key order |
| Realtime.ScoreStep | backend_ml/realtime_utils.py:173-174 | one more detection raises only its own emotion's score, by confidence times weight |
| Realtime.UnlistedScoresZero | backend_ml/realtime_utils.py:169-174 | an emotion never detected scores 0 |
| Realtime.TallyStep | backend_ml/realtime_utils.py:164-174 | one loop step keeps order and scores equal to the specification of the prefix; the loop invariant is `Realtime.Tallied`: the key order is `Kinds` and each tallied score is `Score` |
| Realtime.FirstMaximum | backend_ml/realtime_utils.py:180 | `max` over the items: a highest score, with every earlier key strictly lower |
| Realtime.FirstMaximumIsDominant | backend_ml/realtime_utils.py:180 | the first maximum of a finished pass is the dominant emotion; definitions: `Realtime.Score` (the weighted sum of realtime_utils.py:169-174) and `Realtime.IsDominant` (the item `max` picks at line 180) |
| Realtime.DominantIsUnique | backend_ml/realtime_utils.py:180 | the dominant emotion is determined by the history |
| Realtime.DominantWasDetected | backend_ml/realtime_utils.py:156-180 | the dominant emotion occurs in the history |
| Realtime.Trend | backend_ml/realtime_utils.py:182-202 | fewer than 10 is insufficient; 10-19 is stable; otherwise improving or worsening exactly when the last ten sum more than 1.0 above or below the ten before; the sums are `Realtime.SumConfidence` |
| Realtime.SumOfSteady | backend_ml/realtime_utils.py:194-195 | constant confidences sum to count times the confidence |
| Realtime.SteadyIsStable | backend_ml/realtime_utils.py:182-202 | a history of constant confidence with at least ten entries is stable |
| Realtime.EmotionTracker.constructor | backend_ml/realtime_utils.py:133-135 | stores the window size with an empty history |
| Realtime.EmotionTracker.AddEmotion | backend_ml/realtime_utils.py:145-154 | appends the record (timestamp defaulting to now); the history stays the last `window_size` received |
| Realtime.EmotionTracker.GetDominantEmotion | backend_ml/realtime_utils.py:156-180 | None exactly for an empty history, otherwise the dominant emotion |
| Realtime.EmotionTracker.GetEmotionTrend | backend_ml/realtime_utils.py:182-191 | insufficient data exactly below ten entries; stable for 10-19 |
| Realtime.EmotionTracker.GetEmotionSummary | backend_ml/realtime_utils.py:204-215 | no data exactly when empty; otherwise the dominant emotion, trend, count, last five and window size |
| Realtime.FirstLabelWins | backend_ml/realtime_utils.py:232-233 | a known face's name is its first non-empty label, and every labelled id is known; definitions: `Realtime.FirstLabels` (the table after a sequence of detections) and `Realtime.Labelled` (a non-empty label, realtime_utils.py:232, 257) |
| Realtime.Remember | backend_ml/realtime_utils.py:232-233 | one detection adds its id with its label only when the id is unknown and the label non-empty; every known binding is kept |
| Realtime.FirstLabelsSnoc | backend_ml/realtime_utils.py:232-233 | the name table after one more detection is the old table updated by that detection |
| Realtime.LabelsNeverOverwritten | backend_ml/realtime_utils.py:232 | a later detection never changes a name already known |
| Realtime.FaceStep | backend_ml/realtime_utils.py:254-258 | one loop step adds the id and, for a non-empty label, rebinds it |
| Realtime.LastLabelWins | backend_ml/realtime_utils.py:257-258 | a summary's label for an id is that of its last labelled detection; definition: `Realtime.LastLabels` (realtime_utils.py:254-258) |
| Realtime.LabelledIdsWereSeen | backend_ml/realtime_utils.py:251-258 | only ids that were detected get a label |
| Realtime.Detection | backend_ml/realtime_utils.py:229-241 | the appended record carries the arguments, with a missing timestamp replaced by now |
| Realtime.FaceTracker.constructor | backend_ml/realtime_utils.py:220-224 | empty history and name table, `face_counter` 0 |
| Realtime.FaceTracker.AddFaceDetection | backend_ml/realtime_utils.py:226-241 | records the detection: the name table learns a first label and the history stays the last `10 * max_faces` |
| Realtime.FaceTracker.Record | backend_ml/realtime_utils.py:232-241 | the two updates keep both invariants: history is the window, the table is first-label-wins |
| Realtime.FaceTracker.GetFaceSummary | backend_ml/realtime_utils.py:243-266 | over the last 20: distinct ids, last labels, known plus unknown equals the total, the last five detections |
| Realtime.FaceTracker.GetFaceTimeline | backend_ml/realtime_utils.py:268-282 | a timestamp-sorted permutation of the id's detections inside the window; it is exactly the stable sort by timestamp of those detections, so equal timestamps keep their history order |
| Realtime.TimelineFacts | backend_ml/realtime_utils.py:276-282 | a sorted permutation of the filtered detections holds only that face in the window, in time order; definition: `Realtime.OfFaceSince` (the test of realtime_utils.py:278-279) |
| Backend.DefaultPrefs | backend_ml/app.py:117-122 | the defaults: username "mate", sleep hour 22, nudge enabled |
| Backend.LoadPrefs | backend_ml/app.py:126-133 | start-up merges every field the saved file holds into the defaults, the hour unchecked |
| Backend.LoadPrefsLaws | backend_ml/app.py:126-133 | with no file the defaults stay; the loaded hour is a clock hour exactly when the saved one is absent or 0-23, and then loading equals `/set-prefs` on the defaults |
| Backend.ApplyPrefs | backend_ml/app.py:972-986 | supplied name and switch replace the stored ones; the hour only when it is 0-23; anything not supplied is kept |
| Backend.ApplyPrefsLaws | backend_ml/app.py:976-980 | a valid stored hour stays valid; the same request twice equals once; an empty request changes nothing |
| Backend.RoleOf | backend_ml/app.py:158-160 | the stored role, or "friend" for an unknown label |
| Backend.AtMostOncePerDay | backend_ml/app.py:174-207 | over any runs in one day the job nudges at most once, and exactly when enabled, not yet nudged today and run at the sleep hour; definitions: `Backend.NudgeDue` (app.py:178-184, the job's test) and `Backend.NudgesOn` (the count of nudges over a day's runs) |
| Backend.SleepMessage | backend_ml/app.py:186 | the nudge text: "Hey ", the username, then ", it’s time to sleep." |
| Backend.IntentPriority | backend_ml/app.py:379-431 | added words never demote a who-is-this command; a time command stays one unless a who phrase appears; a name command loses only to who or time phrases; definition: `Backend.ClassifyIntent` (app.py:379, 415, 423, tested in that order) |
| Backend.CommandText | backend_ml/app.py:376 | `lower().strip()` of the transcript: the lowered transcript with the Python whitespace at both ends removed and none left at either end; no longer than the transcript and free of capitals |
| Backend.CommandTextIsDetermined | backend_ml/app.py:376 | the contract of `CommandText` pins its value: only the lowered, stripped transcript meets it |
| Backend.IdentifyMessage | backend_ml/app.py:395-402 | with a non-empty label the reply is "This is ", the label, then ", your {role}." for a non-empty role or "." otherwise; without a label the apology; truthiness of label and role is `Backend.Truthy` (present and non-empty) |
| Backend.FileExtension | backend_ml/app.py:607 | the extension contains no '.', and is "" for a name without '.' |
| Backend.AfterLast | backend_ml/app.py:607 | the text after the last occurrence of a character: a suffix of the input that does not contain that character; the whole text when the character does not occur |
| Backend.ExtensionOfName | backend_ml/app.py:607 | a name "stem.ext" with a dot-free `ext` has extension `ext` in lower case |
| Backend.AfterLastOfSplit | backend_ml/app.py:607 | `split('.')[-1]` is the text after the last '.' |
| Backend.ClassifyByExtension | backend_ml/app.py:610-616 | with no MIME type, the kind is the list that holds the extension; the lists are disjoint and unknown means in none |
| Backend.ImageWins | backend_ml/app.py:616 | image is chosen exactly when the extension is an image one or the MIME type contains "image"; definition: `Backend.Classify` (app.py:616, 665, 700, 758, 794, the first matching branch wins) |
| Backend.Truncate | backend_ml/app.py:768 | short text is kept; longer text becomes its first `limit` characters and "..." |
| Backend.TruncateIdempotent | backend_ml/app.py:844 | truncating a truncated text changes nothing |
| Backend.TextPreview | backend_ml/app.py:768 | at most 203 characters; the whole text up to 200, else its first 200 and "..." |
| Backend.EchoedInput | backend_ml/app.py:844 | at most 103 characters; the whole text up to 100, else its first 100 and "..." |
| Backend.ResponseFor | backend_ml/app.py:826-840 | the fallback "I'm here with you." exactly for emotions outside the six mapped ones |
| Backend.Server.constructor | backend_ml/app.py:117-168 | the defaults updated by the saved preferences file, the saved roles, no nudge yet; the hour is a clock hour exactly when the saved one is absent or 0-23 |
| Backend.Server.SetPrefs | backend_ml/app.py:972-986 | preferences become `ApplyPrefs` of the old ones; a clock hour stays one, and a valid requested hour makes it one; roles and nudge date kept |
| Backend.Server.GetLabelRole | backend_ml/app.py:158-160 | the stored role, or "friend" |
| Backend.Server.SetLabelRole | backend_ml/app.py:162-165 | afterwards the label has the role and every other label keeps its own |
| Backend.Server.SleepReminderJob | backend_ml/app.py:174-207 | nudges with "Hey {name}, it’s time to sleep." exactly when due, and then records today |
| Backend.Server.VoiceCommand | backend_ml/app.py:376-441 | the reply's intent is the priority classification of the lowered, stripped transcript; who-is-this needs an image; recognised label and role, username and transcript as returned; each reply's message: the image request, the identify message for the recognised label and its role, "It’s {time}." with the time, "Your name is {username}." |
| Backend.Server.Answer | backend_ml/app.py:379-441 | the same reply for an already normalised command; the same messages |
| Backend.Server.NoImageNoRecognition | backend_ml/app.py:379-385 | without an image a who-is-this reply is the fixed request, whatever recognition would say |
| Backend.SetRoleThenAsk | backend_ml/app.py:393-402 | after setting a label's role, recognising that label names the role |

## Left out

- Rendering, styling, animations, icons and the close buttons: the handlers and what they render are modelled; the markup is not.
- Browser and framework services are parameters: the file dialog, `URL.createObjectURL`, `Date.now()`, `new Date()` parsing (`parse: string -> int`), and the ISO "now" text. React's batching and re-render timing are not modelled.
- `new Date(...)` of text that does not parse yields NaN in JavaScript, and sorting with a NaN comparator is implementation-defined. The `parse` parameter always returns a number.
- Reminders.RemindersEditor.Save: it requires the fresh id to be non-zero and unused, which `Date.now()` gives in practice, and does not model a clash.
- Text.Lower: lowers ASCII letters only; Python's full Unicode case mapping is not modelled.
- The `speak` calls, WebSocket broadcasts, logging, the prefs and roles JSON files (`load_prefs`, `save_prefs`, `load_roles`, `save_roles`) and the scheduler thread: these are I/O and concurrency. The roles file is a `roles` map field, read and written in place.
- Speech recognition, face recognition and emotion detection are foreign calls. Their results are parameters (`recognized`), or they are left out (the emotion and confidence in the unknown-intent reply, and the per-kind processing of uploads).
- Backend.Server.VoiceCommand: the time reply takes the formatted clock text as a parameter; `strftime("%I:%M %p")` is not modelled.
- Backend.Server.SleepReminderJob: takes the hour and a day number as parameters instead of reading the clock; the exception swallowing around it is not modelled.
- Backend.Server.SetPrefs: `int(...)` conversion of a non-integer hour (which the code ignores) is not modelled; hours are integers.
- Floating-point confidences, weights and timestamps are integers: confidences in hundredths, weights in tenths, timestamps in whole seconds.
- `RealTimeVideoProcessor`, the callback lists (`add_audio_callback`, `add_frame_callback`), the threads, and the frame encode/decode helpers of backend_ml/realtime_utils.py: these are I/O and threading outside the trackers.
- Realtime.EmotionTracker.GetEmotionTrend: its own contract states only the insufficient-data and 10-19 cases; the full comparison is stated by `Realtime.Trend`, which it returns.
- Audio bytes are `seq<bv8>`, and metadata values are integers.
- Realtime.AudioProcessor.ProcessAudioChunk: `metadata.update(...)` changes the caller's own dict in place, and the buffer keeps that same object. The model buffers an independent copy. So it does not capture that the caller's dict gains the three keys, nor that chunks buffered with one reused dict all show its latest timestamp and chunk size.
- Realtime.ChunkMetadata: is the value of the updated dict, not the shared object (see above).
- Realtime.AudioProcessor.constructor: the defaults `sample_rate=16000` and `chunk_size=1024` are not modelled; both are explicit parameters.
- Realtime.AudioProcessor.GetAudioBuffer: the default `max_chunks=100` is not modelled; it is an explicit parameter.
- Realtime.EmotionTracker.constructor: the default `window_size=30` is not modelled; it is an explicit parameter. The size is a `nat`, so the `ValueError` that `deque(maxlen=...)` raises for a negative `window_size` (realtime_utils.py:135) is not modelled.
- Realtime.FaceTracker.constructor: the default `max_faces=10` is not modelled; it is an explicit parameter. The size is a `nat`, so the `ValueError` that `deque(maxlen=...)` raises for a negative `max_faces` (realtime_utils.py:222) is not modelled.
- Realtime.FaceTracker.GetFaceTimeline: the default `window_minutes=5` is not modelled; it is an explicit parameter, and so is the current time.
- Backend.LoadPrefs: a preferences file whose values have the wrong JSON type, an unreadable file, and extra keys are not modelled.
- The older duplicate back end backend-ml/app.py and the rest of the repository (pages, landing, settings, login) are not part of this model.
