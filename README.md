# Time To Fuse: trial design, scoring and session bookkeeping in Dafny

This project models the deterministic core of the Time To Fuse experiment script
(`MR.py`) and its calibration helper (`haploscope_utils/csv_to_binocular_offset.py`).
Every random draw and every participant key event is an input to the model.

- **Trial design** (`trial_design.dfy`, module `TrialDesign`): the practice trial's two draws.
  - `Choice` (A/B) decides which slot holds the real word or flower.
  - `popOutChoice` decides which class is nearer.
  - Together they set the micro-offsets `hpos1`/`hpos2` and the items placed in each slot.
- **Response scoring** (`scoring.dfy`, module `Scoring`): the key list from the response prompt, together with the popped-out class, gives a quit or a 0/1 score and its feedback text.
- **Practice loop** (`practice_loop.dfy`, module `PracticeLoop`): the `trialNum` counter loop, with the two places where "q" cuts it short.
- **Dropdown lists** (`dropdown.dfy`, module `Dropdown`): `move_to_front` is a class whose list field is updated in place.
- **Session files** (`session_files.dfy`, module `SessionFiles`). The filesystem is a map from path to content, held by a `FileSystem` class. On top of it sit:
  - `loadJSON` and `writeJSON`;
  - the start-up rotation of a stale database and tell file, whose renamed paths are derived by suffix slicing.
- **Tell replay and shutdown** (`tell_replay.dfy`, module `TellReplay`). The socket to the staircase server is a log of sent and received events, and the server process is a log of signals. On top of them sit the start-up that reloads a flushed tell list, `primeDatabase`, and the quit/end-of-experiment shutdown sequence. `primeDatabase` is defined in MR.py but never called: the start-up only counts the reloaded tells (see Findings).
- **Calibration table** (`calibration_table.dfy`, module `CalibrationTable`): the table holds rows of subject, session and correction cells. It is read in two ways:
  - MR.py's latest-session mean;
  - the helper script's all-sessions mean.
  Each lookup ends in one of three outcomes: the KeyError of a missing column, the NaN of a subject with no rows, or an offset.
- **Offset resolution** (`manual_offset.dfy`, module `ManualOffset`): a table record in pixels is converted to degrees by `ppd`. Without a record, the participant moves a "+" with the arrow keys until it is centred and confirms with space. Offsets are kept in exact integer tenths of a degree.
- `wrappers.dfy` (module `Wrappers`) holds the `Option` and `Result` datatypes.

The state the script changes step by step is modelled as methods with loops or as classes with `modifies` clauses:
- the practice loop;
- the manual-adjustment loop;
- `primeDatabase`'s `for` loop;
- the dropdown list;
- the file rotation;
- the socket.

Each such method is proved against a function that specifies it. The lemmas about those functions carry the properties.

## Model

| member | source | states |
|---|---|---|
| TrialDesign.ShiftMagnitude | MR.py:703 | The shift `(hDisparityMagnitude/2)/60` is exactly one 120th of the magnitude (half, converted from arcmin to degrees). |
| TrialDesign.PoppedSlot | MR.py:683-697 | The chosen slot holds the popped-out class, and the other slot holds the other class. |
| TrialDesign.HorizontalOffsets | MR.py:701-715 | The offsets shift only the slot holding the popped-out class, by the shift magnitude. One of `hpos1`/`hpos2` is 0, and they sum to the magnitude. |
| TrialDesign.ShiftedSlotIff | MR.py:701-715 | For a non-zero magnitude, slot 1 alone is shifted iff (Choice == A) == (pop-out == real or flower), and slot 2 alone is shifted iff not. |
| TrialDesign.EachSlotShiftedUnderOneChoice | MR.py:683-715 | For either pop-out class, the two Choice values shift different slots, so each slot is shifted under exactly one of them. |
| TrialDesign.PickItems | MR.py:683-697 | Slot 1 gets a real-word/flower item and slot 2 a nonsense/bird item when slot 1 holds real/flower, and the reverse otherwise. Each item is the pool directory joined with the drawn file. |
| Scoring.Feedback | MR.py:894-897 | The feedback text is "Correct" iff the response is 1. |
| Scoring.ScoreResponse | MR.py:878-897 | Covers both the quit and the scoring paths. The outcome is a quit iff "q" was pressed. Otherwise the score is 0 or 1, it is 1 iff some pressed key names the popped-out class, and the feedback is "Correct" iff the score is 1. |
| Scoring.CorrectKey | MR.py:878-886 | For each class there is an accepted non-quit key that names it. |
| Scoring.SingleKeyScore | MR.py:878-890 | A single accepted non-"q" key scores 1 exactly when it names the popped-out class; every other accepted key scores 0. |
| Scoring.CorrectKeyScoresOne | MR.py:878-897 | The correct key alone gives (1, "Correct"), and the other class's key gives (0, "Incorrect"). |
| PracticeLoop.RangesFor | MR.py:648-653 | Both practice ranges are non-empty intervals under either difficulty. |
| PracticeLoop.HardIsHarder | MR.py:648-653 | The hard ranges allow shorter durations and larger disparities than the easy ones. |
| PracticeLoop.TrialOf | MR.py:676-897 | An unquit iteration records its own trial number, the offsets that shift the popped-out slot, and the score and feedback of its response keys. |
| PracticeLoop.RunTrial | MR.py:676-897 | One iteration returns nothing iff "q" is pressed at fixation or at response. Otherwise it returns the trial that `TrialOf` describes. |
| PracticeLoop.RunPractice | MR.py:671-675 | The loop as written scores exactly the trials of the reference `Trials`, over `numPracticeTrials + 1` iterations and stopping at the first quit. It ends with `trialNum == numPracticeTrials + 1`, both after a quit and after the last iteration. |
| PracticeLoop.RunPracticeIntended | MR.py:671-675 | With the guard `<`, the loop scores the reference trials over `numPracticeTrials` iterations, so never more than that. |
| PracticeLoop.TrialsExtend | MR.py:673-675 | After unquit iterations, one more iteration appends exactly its own trial, or nothing when it quits. |
| PracticeLoop.TrialsPrefix | MR.py:761-764 | Iterations after the first quit score nothing: the run equals its prefix up to the quit. |
| PracticeLoop.TrialsLength | MR.py:674 | A run of `count` iterations scores at most `count` trials. |
| PracticeLoop.TrialsNumbered | MR.py:671-675 | The j-th scored trial carries trial number `from + j + 1`. Its iteration was not quit, and it is scored from its own events. |
| PracticeLoop.TrialsWithoutQuit | MR.py:674-675 | Without a quit, every iteration scores exactly one trial. |
| PracticeLoop.TrialsQuitAt | MR.py:761-764 | A first quit at iteration k leaves exactly k scored trials. |
| PracticeLoop.PracticeRunsOneExtraTrial | MR.py:151 | With the constant 100 and no quit, the loop as written scores 101 trials. |
| PracticeLoop.IntendedRunsBudget | MR.py:151 | With the intended guard and no quit, exactly 100 trials are scored. |
| Dropdown.FirstIndex | MR.py:60 | The index `list.remove` acts on holds the item, and no earlier entry equals it. |
| Dropdown.RemoveFirst | MR.py:60 | `list.remove` deletes exactly the first occurrence. |
| Dropdown.MovedToFrontProperties | MR.py:59-62 | After the move, the item is at index 0, the length and the multiset are unchanged, and the other entries keep their relative order. |
| Dropdown.MovedToFrontIdempotent | MR.py:59-62 | Moving the same item to the front twice equals moving it once. |
| Dropdown.OptionList.Remove | MR.py:60 | The list loses its first occurrence of the item. When the item is absent, it reports failure and nothing changes. |
| Dropdown.OptionList.Insert | MR.py:61 | The item is inserted at the index, clamped to the length. |
| Dropdown.OptionList.MoveToFront | MR.py:59-62 | The list is reordered in place to the reference order, and the same object is returned. When the item is absent, the list is unchanged and no list is returned. |
| SessionFiles.DropLast | MR.py:334 | The slice `[0:-k]` drops the last k characters. |
| SessionFiles.DatabaseName | MR.py:319 | The database name ends in ".db", and slicing `[0:-3]` gives back the session file name. |
| SessionFiles.TellFileName | MR.py:322 | The tell file name ends in ".json", and slicing `[0:-5]` gives back the name under the `Data/` directory. |
| SessionFiles.RotatedDatabaseName | MR.py:334 | The stamped name is again a ".db" name, whose stem is the old stem followed by "_" and the stamp. |
| SessionFiles.RotatedTellName | MR.py:338 | The stamped name is again a ".json" name, whose stem is the old stem followed by "-" and the stamp. |
| SessionFiles.RotatedDatabaseNameKeepsStem | MR.py:319-334 | Slicing `[0:-3]` removes exactly the ".db" added at 319: the rotated name is `fileName + "_" + stamp + ".db"`, which differs from the live name. |
| SessionFiles.RotatedTellNameKeepsStem | MR.py:322-338 | Slicing `[0:-5]` removes exactly ".json": the rotated tell file is `stem + "-" + stamp + ".json"`. |
| SessionFiles.DbAndJsonNamesDiffer | MR.py:319-322 | A ".db" name never equals a ".json" name. |
| SessionFiles.LoadTells | MR.py:188-196 | Loading succeeds iff the file exists and holds a tell list, and then returns exactly the stored list. A missing file is a FileNotFound error; a file holding database content, which is not JSON, is a MalformedJson error. |
| SessionFiles.WriteTells | MR.py:204-208 | An empty list writes nothing. Otherwise, reading the file back gives exactly the list written. Every other file is untouched. |
| SessionFiles.RenameFile | MR.py:335 | The content moves to the target and the source disappears. Every other file is untouched. |
| SessionFiles.RotateWithoutStaleDatabase | MR.py:323-343 | Without a database file, nothing is renamed and no tells are loaded, even when a tell file exists. |
| SessionFiles.Rotate | MR.py:323-343 | The rotation fails exactly when a database exists, continuation is requested, and `loadJSON` of the tell file fails; the error names the tell file. Reloaded tells are non-empty only when a database exists and continuation is requested. |
| SessionFiles.RotateLoadsOnlyWithDatabase | MR.py:326-330 | `tellContent` is non-empty only if the database existed and continuation was requested, and then it is the stored list. |
| SessionFiles.RotateMissingJsonFails | MR.py:326-330 | A database without its tell file makes `loadJSON` fail with FileNotFound. |
| SessionFiles.RotateMovesStaleFiles | MR.py:319-339 | A rotation moves the database to its stamped name, and moves the tell file to its stamped name exactly when it existed. Every other file is left as it was. |
| SessionFiles.RestartReloadsFlushedTells | MR.py:204-208 | Tells flushed by `writeJSON` while the database remains are exactly the `tellContent` of the next start. |
| SessionFiles.FileSystem.Rename | MR.py:335 | The file map becomes the reference rename of the old map. |
| SessionFiles.FileSystem.WriteJson | MR.py:204-208 | The file map becomes the reference write of the old map. |
| SessionFiles.FileSystem.RotateStaleFiles | MR.py:319-343 | The statement-by-statement rotation ends in the reference rotation's files and `tellContent`. On error, nothing changes. The restart count is `len(tellContent)`. |
| TellReplay.Socket.Send | MR.py:200 | Sending appends one send event to the socket log. |
| TellReplay.Socket.Receive | MR.py:201 | Receiving appends one receive event to the socket log. |
| TellReplay.ServerProcess.SendKill | MR.py:640 | `pAEPsych.kill()` appends one kill signal. |
| TellReplay.ServerProcess.SendTerminate | MR.py:641 | `pAEPsych.terminate()` appends one terminate signal. |
| TellReplay.PrimingReplaysInOrder | MR.py:198-201 | Priming sends exactly the stored tells, in order, with one receive after each. The log has length 2·n, and the number of receives is n. |
| TellReplay.PrimeDatabase | MR.py:198-201 | The `for` loop appends exactly the reference priming events to the socket log. |
| TellReplay.Shutdown | MR.py:637-641 | Shutdown flushes the tells with `writeJSON`, clears the list, sends one exit message, and then signals kill and terminate. Within the socket's log the exit message follows the earlier events; within the process's log kill precedes terminate. |
| TellReplay.StartUp | MR.py:319-344 | The start-up as written: it returns the rotation's outcome and a restart count equal to the number of reloaded tells. The files become the rotation's files, or stay as they were on an error. Nothing is sent on the socket. |
| TellReplay.StartUpIntended | MR.py:319-344 | The corrected start-up, which also calls `primeDatabase` (MR.py:198-201). It has the same rotation outcome, restart count and resulting files. On success the socket log gains exactly the priming events of the reloaded tells; on an error the socket is untouched. |
| TellReplay.RestartPrimesFlushedTells | MR.py:1226-1227 | Under the corrected start-up, tells flushed at the end of a run are reloaded and replayed in order at the next start. |
| CalibrationTable.ColumnNamesDistinct | haploscope_utils/csv_to_binocular_offset.py:46-47 | Different units or axes select different "ipd_correction_<units>_<axis>" columns. |
| CalibrationTable.SubjectRows | haploscope_utils/csv_to_binocular_offset.py:45 | Exactly the rows whose subject matches are kept. |
| CalibrationTable.SessionRows | MR.py:396 | Exactly the rows of the given session are kept. |
| CalibrationTable.MaxSession | MR.py:394 | The session maximum is attained by some row, and no row exceeds it. |
| CalibrationTable.FilterCompose | MR.py:392-396 | Filtering by subject and then by session keeps exactly the rows that match both. |
| CalibrationTable.LatestSessionOffset | MR.py:388-402 | MR.py's lookup is a KeyError exactly when one of the two columns is missing, and the error names a missing column. A record is found only when the subject has rows. |
| CalibrationTable.AllSessionsOffset | haploscope_utils/csv_to_binocular_offset.py:43-48 | The helper's lookup is a KeyError exactly when one of the two columns is missing, and the error names a missing column. A record is found only when the subject has rows. |
| CalibrationTable.LatestSessionOffsetMeaning | MR.py:388-402 | A missing column is a KeyError, naming the horizontal column first and the vertical column when only it is missing. With both columns present, the result is a record whenever the subject has a row. The result is NaN exactly when the subject has no row. Otherwise it is the two column means over exactly the rows with the subject and the subject's maximum session. |
| CalibrationTable.AllSessionsOffsetMeaning | haploscope_utils/csv_to_binocular_offset.py:43-48 | A missing column is a KeyError, naming the horizontal column first and the vertical column when only it is missing. With both columns present, the result is a record whenever the subject has a row. The result is NaN exactly when the subject has no row. Otherwise it is the two column means over all of the subject's rows. |
| CalibrationTable.SumPermutation | haploscope_utils/csv_to_binocular_offset.py:46-47 | A column sum does not depend on the order of the rows. |
| CalibrationTable.AveragePermutation | haploscope_utils/csv_to_binocular_offset.py:46-47 | A column mean does not depend on the order of the rows. |
| CalibrationTable.AverageOfConstant | haploscope_utils/csv_to_binocular_offset.py:46-47 | If every matching row holds c, the mean is c. |
| CalibrationTable.LatestOffsetIndependentOfRowOrder | MR.py:388-402 | Reordering the table's rows does not change the latest-session offset. |
| CalibrationTable.AllSessionsOffsetIndependentOfRowOrder | haploscope_utils/csv_to_binocular_offset.py:43-48 | Reordering the table's rows does not change the all-sessions offset. |
| CalibrationTable.OtherSubjectsIgnored | haploscope_utils/csv_to_binocular_offset.py:45 | Adding another subject's row changes neither offset. |
| CalibrationTable.SingleSessionVersionsAgree | MR.py:392-396 | When all of the subject's rows share one session, both versions agree. |
| CalibrationTable.VersionsDifferAcrossSessions | MR.py:394-396 | A subject with 0.0 in session 1 and 2.0 in session 2 gets 2.0 from MR.py's copy and 1.0 from the helper. |
| ManualOffset.VerticalSeedIgnoresVerticalDefault | MR.py:432-435 | As written, the vertical seed is the horizontal seed's formula. With no jitter it is -1.1 rather than -1.8, and a +1.0 jitter puts it 1.7 from -1.8. |
| ManualOffset.InitialOffsets | MR.py:434-435 | As written, both seeds start from the horizontal default, so they differ only by the jitters. |
| ManualOffset.IntendedInitialOffsets | MR.py:432-435 | The corrected seed keeps the as-written horizontal seed and moves the vertical seed by the difference between the vertical and horizontal defaults. |
| ManualOffset.IntendedSeedNearDefaults | MR.py:432-435 | With the intended seed, each axis starts within 1.0 of its own default. |
| ManualOffset.ApplyKeys | MR.py:475-492 | One poll moves the vertical offset by up minus down, and the horizontal offset by right minus left, with the sign reversed when mirrored. Each step is 0.1. |
| ManualOffset.Adjust | MR.py:441-499 | The adjustment confirms an offset exactly when some poll holds space. |
| ManualOffset.NetEffect | MR.py:441-492 | Over a run of polls, each offset moves by the count of polls pressing one key minus the count pressing the opposite key. The horizontal sign is reversed when mirrored. |
| ManualOffset.MirrorReflectsHorizontal | MR.py:481-492 | Mirroring reflects the horizontal movement and leaves the vertical movement unchanged. |
| ManualOffset.AdjustStopsAtFirstSpace | MR.py:495-496 | The loop ends at the first poll holding space, with every poll up to and including it applied. |
| ManualOffset.AdjustWithoutSpace | MR.py:441 | Without a space, the adjustment never ends. |
| ManualOffset.AdjustOffset | MR.py:441-499 | The `while finishedOffset == False` loop confirms exactly the reference adjustment, with pixel offsets equal to degrees × ppd. With no space, it confirms nothing. |
| ManualOffset.FromPixels | MR.py:419-425 | A table record keeps its pixel values, and its degrees times ppd give those pixels back. |
| ManualOffset.Resolve | MR.py:415-499 | Covers every outcome of the table lookup: a record is used iff the lookup found one; a missing column is an error; and a NaN record leads to the manual procedure, started from the corrected seed. Any resolved calibration has degrees × ppd equal to its pixels. |
| ManualOffset.ResolveForSubject | MR.py:415-499 | A subject absent from the table gets the offsets confirmed by the first poll holding space, applied from the corrected seed. |

## Left out

- Rendering, windows, monitors, stimulus drawing and flips are display glue (MR.py:237-310, 538-626, 783-874, 900-998). MonitorIdentifier.py is not part of this model; it only opens windows.
- The live presentation loop (MR.py:783-841) is not modelled. It never exits in debug mode and exits only on "q" in test mode; its end time is never checked. In test mode the keys v/b, n/m and r (MR.py:796-816) change `hpos1` and `currentDisparity`, so the displayed offsets can stop matching the one-slot-shifted rule that `TrialDesign.HorizontalOffsets` states. The practice model treats every trial not quit as reaching the response prompt with the offsets as drawn.
- The dialog and the pickle of last-used settings (MR.py:65-110) are interactive UI and file I/O. Only `move_to_front` is modelled.
- The `ppd` formula (MR.py:406) uses floating-point trigonometry, so `ppd` is a positive parameter.
- The contents of the server's replies are left out. The AEPsych helpers `SendExitMessage`, `SocketSendMessage` and `SocketRecvMessage`, and the `AEPsychSocket` object, are used but not defined or imported in MR.py, so they are modelled as log entries only.
- TellReplay.Shutdown: as MR.py stands, `SendExitMessage(AEPsychSocket)` (MR.py:639, 986, 1232) raises NameError right after the tells are flushed, so `kill()` and `terminate()` never run. The model follows the evident intended sequence: flush, exit message, kill, terminate.
- The commented-out staircase ask/tell loop (MR.py:1002-1199) is dead code.
- Random draws are parameters: `choice`, `randrange`, `uniform`, and the jitter of MR.py:434-435. Their distributions are not modelled.
- Wall-clock time (`datetime.now`, `core.getTime`, `core.wait`) is left out. The rotation stamp is a string parameter.
- File formats are not modelled. The filesystem is a map from path to a database or a tell list. Any parseable JSON (a JSON object, say) loads without error in the script; the model has no such content and only the unparseable database content is a `MalformedJson` error.
- Subject names are compared as strings. `pandas.read_csv` may infer a numeric type for a `subject_name` column of digits (MR.py:390 and haploscope_utils/csv_to_binocular_offset.py:44), after which a string participant ID never matches; that type inference is not modelled.
- Micro-offsets, disparities and table cells are exact reals, not floating-point numbers (MR.py:703-704 and the table means); rounding is not modelled.
- TrialDesign.PickItems: its requires asks for non-empty item pools. With an empty pool `randrange(0, 0)` raises ValueError in the script; the shipped word and image lists are non-empty, so that error path is not modelled.
- The session file name ends with the minute-resolution date (MR.py:100, 220-222), so a stale database of the same name exists only when the script restarts within the same minute. The rotation and restart lemmas describe that path.
- ManualOffset.Resolve: when the manual procedure is needed, it starts from the corrected seed `IntendedInitialOffsets`, whereas MR.py:435 seeds the vertical offset from the horizontal default -1.1 (see Findings).
- ManualOffset.ResolveForSubject: like `Resolve`, it starts the manual procedure from the corrected seed `IntendedInitialOffsets`, not the as-written seed of MR.py:432-435 (see Findings).
- `continue_if_data.lower() == 'yes'` is a boolean parameter.
- The `easy`/`hard` difficulty only selects the two ranges. The uniform draws within them are not modelled.
- NaN cells inside the calibration table are not modelled. NaN arises only from a mean over no rows (`NoRecord`), as the script's `isnan(offsets[0])` test sees it. The table's numbers are exact reals, with no floating-point rounding.
- SessionFiles.FileSystem.Rename: the model overwrites an existing target, as `os.rename` does on POSIX. The Windows behaviour of raising when the target exists is not modelled.
- ManualOffset.AdjustOffset: participant key polls are a finite sequence. When none holds space, the model returns `None`, where the script keeps polling for ever. The 0.1° steps are exact tenths rather than floating-point sums.
- The manual calibration is not saved anywhere, as the script's own comment at MR.py:499 notes.
- The background reselection loop that skips `Thumbs.db` (MR.py:509-514, 552-557) is a random redraw.
- The experimental trial writes and the ask/tell exchange with the staircase server are left out, because only their commented-out form exists.

## Findings

| source | as written | input that shows it | evidently intended | confidence | as-written member | corrected member |
|---|---|---|---|---|---|---|
| MR.py:671-675 | `trialNum` starts at 0, is incremented at the top of the body, and the guard is `trialNum <= numPracticeTrials`, so `numPracticeTrials + 1` iterations run | `numPracticeTrials = 100` (MR.py:151) and no "q": 101 practice trials, numbered 1..101 | exactly `numPracticeTrials` practice trials (guard `trialNum < numPracticeTrials`) | not executed; medium | PracticeLoop.RunPractice, PracticeLoop.PracticeRunsOneExtraTrial | PracticeLoop.RunPracticeIntended, PracticeLoop.IntendedRunsBudget |
| MR.py:432-435 | `offsetVertical = initialOffsetHorizontal + jitter`, so `initialOffsetVertical = -1.8` is never used | vertical jitter 0: the seed is -1.1, not -1.8; vertical jitter +1.0: the seed is -0.1, 1.7 from -1.8 | `offsetVertical = initialOffsetVertical + jitter` | not executed; high | ManualOffset.InitialOffsets, ManualOffset.VerticalSeedIgnoresVerticalDefault | ManualOffset.IntendedInitialOffsets, ManualOffset.IntendedSeedNearDefaults |
| MR.py:326-344 | a stale database with `continue_if_data` 'yes' reloads the flushed tells, but only their count `number_reduce_trial_runs_bc_restart` is used; `primeDatabase` (MR.py:198-201) is never called, so the restarted server is not told the earlier responses. The script's comment at MR.py:336 says continuing an in-progress experiment was never added, so the replay is a feature left unbuilt rather than a slip | a database present, a tell file with n > 0 tells, continue 'yes': the restart count is n and no tell is sent | pass `tellContent` to `primeDatabase` after loading it | not executed; low | TellReplay.StartUp, SessionFiles.RestartReloadsFlushedTells | TellReplay.StartUpIntended, TellReplay.RestartPrimesFlushedTells |
