# TuxSnap GUI core in Dafny

TuxSnap is a desktop front end for a snapshot shell script, `alpsnap.sh`. This project models its two pieces of real logic.

**The settings dialog** (`settings.dfy`, module `Settings`) reads the flat `KEY="value"` file `/etc/alpsnap.conf`.
- Loading trims each line and skips comments, blank lines and lines without `=`. The key is the trimmed text before the first `=`. The value is the trimmed text after it with every `"` removed. A later line for the same key overrides an earlier one. Keys that do not occur load as the empty string.
- Four of the values are shown in line edits. A line edit keeps at most 32767 characters of a text set on it, its default maximum length. The encryption choice is the pair of radio buttons.
- Saving writes a fixed 20-line template with the current values filled in and then accepts the dialog.
- The Apply button's enabled flag follows the change signals of the fields. Saving runs only from a click on Apply, and a disabled button sends no click, so nothing is saved until a field has changed.
- The file's text is a parameter: `None` when the file cannot be opened.

**The main window** (`main_window.dfy`, module `MainWindow`) is a state machine over the snapshot list and its buttons.
- The list command's standard output becomes list entries. When it names no snapshot, the list gets a single entry that cannot be selected.
- The restore button is enabled only for a selectable current entry. The buttons' slots run only while their button is enabled, since a disabled button sends no click.
- A script command disables both buttons while it runs. When it finishes, create is enabled again and restore is recomputed.
- The handler of a change of current entry is modelled twice: as written, and corrected so that it leaves restore disabled while a command runs (see "## Findings"). The window uses the corrected handler.
- A ghost field records every id that the list command has printed.
- Only a successful run (a normal exit with code 0) reloads the list.
- Without root rights, no process is started.
- Each started process is recorded by its arguments. Its completion is an event method that takes the exit status, the exit code and, for the list command, the output.

**The string operations** come from the UI toolkit's string class: trimming, section, remove, split, and reading a text file line by line. They are in `text.dfy`, module `Text`. `wrappers.dfy` holds `Option`.

Main results:
- `Settings.SaveLoadRoundTrip`: saving and loading again gives back the four values and the encryption choice, provided the values hold no `"` and no line break.
- `Settings.ReopenShowsSaved`: opening the dialog again after a save shows the saved values, provided they are storable and fit in the line edits.
- `Settings.LoadSaved`: when the four values hold no line break, the saved file loads as the nine template keys. The fixed backend, log file, time format and compression settings always appear. `Settings.ParseSavedLines` states the same of the saved lines for any values.
- `MainWindow.ListedIdsRoundTrip`: ids without white space, printed one per line, are listed back exactly, in order.
- `MainWindow.AlpSnapGui.Valid`: an invariant kept by every event. While it holds, restore can be enabled only for a selectable entry, and the text of every selectable entry is an id that the list command printed. The placeholder entry is never selectable (`MainWindow.ListedItemRestorable`).
- `MainWindow.AlpSnapGui.Guarded`: with the corrected handler, at most one script command runs, and both buttons stay disabled while it does.

Both classes follow the code:
- Replacing a line edit's text with a different text signals a change, which enables Apply. `loadConfig` then disables Apply at its end.
- `QListWidget::clear` moves the current entry to none. When there was a current entry, this signals the change and so disables restore.

As written, selecting another entry while a command runs re-enables restore (`src/alpsnapgui.cpp:64` with `:199`). "## Findings" records this, together with the corrected handler.

## Model

| member | source | states |
|---|---|---|
| Text.Trim | src/settingsdialog.cpp:89 | trimming keeps exactly the text between the white-space margins; the result is empty exactly when the text is all white space, and otherwise starts and ends with a non-space character |
| Text.SectionAfter | src/settingsdialog.cpp:75 | when the text holds '=', the text is its part before the first '=', then '=', then the result; otherwise the result is empty |
| Text.SectionBefore | src/settingsdialog.cpp:94 | the result holds no '=' and is the whole text when the text holds no '=' |
| Text.Remove | src/settingsdialog.cpp:75 | the result holds no occurrence of the removed element, and a text without it is unchanged; `Text.RemoveAppend` adds that removing keeps the order of the rest |
| Text.Split | src/alpsnapgui.cpp:148 | the pieces hold no separator and join back to the text |
| Text.SplitJoin | src/alpsnapgui.cpp:148 | splitting undoes joining when no piece holds the separator |
| Text.ReadLines | src/settingsdialog.cpp:87-89 | its definition: the text without carriage returns, split at each newline, without the empty piece after a final newline; `Text.ReadWrittenLines` is its partner |
| Text.ReadWrittenLines | src/settingsdialog.cpp:87-89 | a text written as lines, each ending in a newline, reads back as the same lines when none of them holds a line break |
| Settings.ParseValue | src/settingsdialog.cpp:73-76 | the value holds no '"', and a line without '=' has the empty value |
| Settings.ParseLine | src/settingsdialog.cpp:89-95 | its definition: the trimmed line is skipped when it is a comment, empty or has no '=', and otherwise sets the trimmed key to the parsed value; `Settings.ParseLineShape` and `Settings.KeyValueSplit` state its behaviour |
| Settings.ParseLineShape | src/settingsdialog.cpp:89-95 | a line yields a setting exactly when its trimmed text is not a comment, not empty and holds '='; the key then has no '=' and no outer white space, and the value no '"' |
| Settings.KeyValueSplit | src/settingsdialog.cpp:94-95 | a trimmed line key=rest sets the trimmed key to the trimmed rest without quotes, even when rest holds further '=' |
| Settings.ReadConfig | src/settingsdialog.cpp:86-97 | the line loop builds exactly the map of the parsed lines |
| Settings.ParseConfigAppend | src/settingsdialog.cpp:96 | loading a + b is loading a and then overriding with the settings of b |
| Settings.ParseConfigKeys | src/settingsdialog.cpp:88-97 | a key is loaded exactly when some line sets it |
| Settings.LastAssignmentWins | src/settingsdialog.cpp:96 | the last line that sets a key decides its loaded value |
| Settings.MissingKeyLoadsEmpty | src/settingsdialog.cpp:100-103 | a key that no line sets loads as the empty string |
| Settings.FieldsOf | src/settingsdialog.cpp:100-109 | its definition: the four values looked up with the empty string for a missing key, and gpg exactly when ENCRYPT_MODE is "gpg" |
| Settings.Clip | src/settingsdialog.cpp:100-103 | the part of a text that a line edit keeps is a prefix of at most 32767 characters, the whole text when it fits, and exactly 32767 characters otherwise |
| Settings.Template | src/settingsdialog.cpp:131-143 | its definition: the 20 lines of the saved file, with the four values and the encryption mode in place; `Settings.TemplateWellFormed` states that every line loads as written |
| Settings.ConfigLines | src/settingsdialog.cpp:131-143 | its definition: the rendered template lines; `Settings.SettingsDialog.SaveConfig` proves that the write statements produce them |
| Settings.ParseRendered | src/settingsdialog.cpp:89-96 | every template line loads as expected: comments and blank lines are skipped, a KEY="value" line gives the key and the value without quotes |
| Settings.ParseSavedLines | src/settingsdialog.cpp:131-143 | the saved lines, before they are joined into a file, load as the nine template keys: fixed SNAP_BACKEND, LOG_FILE, TIME_FMT, COMPRESS_MODE, ENCRYPT_MODE "gpg" or "none" from the radio state, and the four user values without their quotes |
| Settings.ReadSavedText | src/settingsdialog.cpp:129-145 | the saved text reads back as exactly the saved lines when the four values hold no line break |
| Settings.LoadSaved | src/settingsdialog.cpp:86-143 | the saved file loads as exactly the nine template keys when the four values hold no line break |
| Settings.SaveLoadRoundTrip | src/settingsdialog.cpp:86-143 | loading a saved file gives back the four values and the encryption choice when they hold no '"' and no line break |
| Settings.ReopenShowsSaved | src/settingsdialog.cpp:86-143 | the line edits of a dialog reopened after a save show the saved values and radio state when the values are storable and at most 32767 characters long |
| Settings.SettingsDialog.constructor | src/settingsdialog.cpp:11-71 | with an unreadable file the fields are empty and no radio is checked; otherwise the fields are the loaded ones, each cut to 32767 characters, and a radio is checked; Apply is disabled |
| Settings.SettingsDialog.LoadConfig | src/settingsdialog.cpp:78-112 | an unreadable file changes nothing; otherwise the four fields take the loaded values (empty when missing) cut to 32767 characters, gpg is checked exactly when ENCRYPT_MODE is "gpg" and none otherwise, and Apply ends disabled |
| Settings.SettingsDialog.OnFieldChanged | src/settingsdialog.cpp:151-154 | Apply becomes enabled |
| Settings.SettingsDialog.SetText | src/settingsdialog.cpp:64-67 | only the given field changes, to the text cut to 32767 characters; Apply becomes enabled exactly when the kept text differs from the old one (or stays enabled) |
| Settings.SettingsDialog.ChooseEncryption | src/settingsdialog.cpp:68 | the chosen radio is checked, nothing else changes, and Apply becomes enabled when the gpg button's state flips |
| Settings.SettingsDialog.SaveConfig | src/settingsdialog.cpp:114-149 | the slot itself: an openable file receives exactly the template text of the current values and the dialog is accepted; otherwise nothing is written and the dialog stays open |
| Settings.SettingsDialog.ClickApply | src/settingsdialog.cpp:62 | a click on Apply (the enabled state set by lines 52, 111 and 153) saves as `SaveConfig` does when Apply is enabled; when Apply is disabled nothing is written and the dialog stays open |
| Settings.ApplyRightAfterOpen | src/settingsdialog.cpp:11-71 | right after the dialog opens, Apply is disabled, so a click writes nothing, whatever the file and whether it can be opened |
| Settings.SaveAfterEdit | src/settingsdialog.cpp:114-154 | with no readable file, typing a non-empty snapshot root enables Apply, and the click writes the template with that root (as the line edit keeps it), empty other values and encryption none |
| MainWindow.SnapshotIds | src/alpsnapgui.cpp:147-148 | every listed id is non-empty and lies on one line |
| MainWindow.Succeeded | src/alpsnapgui.cpp:104 | its definition: a normal exit with exit code 0, the test the three process handlers share (also lines 121 and 146) |
| MainWindow.NoSnapshotsIffBlank | src/alpsnapgui.cpp:147-150 | the output names no snapshot exactly when it is all white space |
| MainWindow.ListedIdsRoundTrip | src/alpsnapgui.cpp:147-148 | ids without white space, printed one per line, are listed back as exactly those ids in order |
| MainWindow.ListedItems | src/alpsnapgui.cpp:149-156 | a successful list adds at least one entry, and the text of every selectable entry is one of the listed ids |
| MainWindow.ListedItemRestorable | src/alpsnapgui.cpp:150-156 | a listed entry allows restore exactly when the output named a snapshot, so the placeholder never does |
| MainWindow.AlpSnapGui.constructor | src/alpsnapgui.cpp:25-68 | the window starts with an empty list and no current entry, create enabled, restore disabled, "awaiting user action" and no process |
| MainWindow.AlpSnapGui.Valid | src/alpsnapgui.cpp:46 | the invariant: the current index lies in the list, restore is enabled only for a selectable current entry, selectable entries hold printed ids, which are listed ids, and a window without root rights has started no process; every event keeps it |
| MainWindow.AlpSnapGui.Guarded | src/alpsnapgui.cpp:94-95 | the intended invariant: at most one command runs, and while it runs both buttons are disabled; every event except the as-written selection keeps it |
| MainWindow.AlpSnapGui.HandleRestoreButtonState | src/alpsnapgui.cpp:197-200 | corrected handler: restore is enabled exactly when no command runs and the item exists and is selectable |
| MainWindow.AlpSnapGui.HandleRestoreButtonStateAsWritten | src/alpsnapgui.cpp:197-200 | restore is enabled exactly when the item exists and is selectable |
| MainWindow.AlpSnapGui.SetCurrent | src/alpsnapgui.cpp:64 | corrected: a different current entry recomputes restore with the corrected handler; the same entry changes nothing; Valid is kept, and so is Guarded |
| MainWindow.AlpSnapGui.SetCurrentAsWritten | src/alpsnapgui.cpp:64 | as written: a different current entry recomputes restore from the entry alone; the same entry changes nothing; Valid is kept |
| MainWindow.AlpSnapGui.LoadSnapshots | src/alpsnapgui.cpp:129-142 | without root only the status changes; with root the list is cleared, restore is disabled and the list command is started |
| MainWindow.AlpSnapGui.ListFinished | src/alpsnapgui.cpp:143-165 | on success the listed entries are appended, their ids are recorded as printed, and the status counts the ids (or says none); on failure the list is unchanged and the status says so; the buttons are unchanged |
| MainWindow.AlpSnapGui.ShowListing | src/alpsnapgui.cpp:149-155 | the entries are appended, the ids are recorded as printed and the status counts them or says there are none; Valid is kept |
| MainWindow.AlpSnapGui.RunScriptCommand | src/alpsnapgui.cpp:84-99 | without root nothing changes; with root both buttons are disabled and the script is started with exactly the arguments |
| MainWindow.AlpSnapGui.HandleScriptOutput | src/alpsnapgui.cpp:119-126 | the status reports success exactly for a normal exit with code 0, and otherwise the exit code |
| MainWindow.AlpSnapGui.CommandFinished | src/alpsnapgui.cpp:101-116 | only a successful run reloads the list; afterwards create is enabled and restore is recomputed from the current entry with the corrected handler (line 114 as written calls the one that ignores running commands; the two agree whenever Guarded holds); when it was the only command, none runs now and Guarded is kept |
| MainWindow.AlpSnapGui.CreateSnapshot | src/alpsnapgui.cpp:169-175 | a click while create is enabled, once confirmed, runs the command ["snapshot"]; otherwise nothing changes |
| MainWindow.AlpSnapGui.RestoreSnapshot | src/alpsnapgui.cpp:177-189 | a click while restore is enabled, with a current entry and once confirmed, runs ["restore", sid] with sid the current entry's text, an id the list command printed; otherwise nothing changes |
| MainWindow.ReselectWhileRunning | src/alpsnapgui.cpp:64 | as written, with two listed snapshots, restoring one and then selecting the other leaves a command running with restore enabled and create disabled, so Guarded fails |
| MainWindow.OverlappingRestores | src/alpsnapgui.cpp:113 | continuing from the as-written selection, a second restore and a failed finish leave create enabled while a command still runs; the finish recomputes restore with the corrected handler, so this run mixes the two (line 113 re-enables create with either) |
| MainWindow.ReselectWhileRunningCorrected | src/alpsnapgui.cpp:64 | with the corrected handler the same events leave restore disabled while the command runs, and Guarded holds |

## Left out
- File access: the configuration file's text is a parameter (`None` when it cannot be opened), and a failed open for writing is a flag. The warning and error message boxes are not modelled.
- Message boxes: the confirmation questions are a `confirmed` flag, and the success, failure and list-error boxes show nothing that the model keeps.
- Cancel (`reject`), `showSettings` and the dialog's `exec` are window plumbing and are not modelled.
- Status bar: messages are `Status` values. Their exact wording, their timeouts and the script path in the "Executing" message are not modelled.
- The `alpsnap.sh` script and `QProcess`: a started process is only recorded by its arguments. Its standard error output is not modelled, since it only feeds message boxes.
- The timer that starts the first load 100 ms after construction: the first load is a separate call to `LoadSnapshots`.
- The root check: `getuid() == 0` is a constant `isRoot` of the window. `src/main.cpp`, which re-executes the program through `sudo`, is not part of this model.
- Text decoding: the config file's text and the script's output are sequences of Unicode characters. UTF-8 decoding is not modelled. `QLineEdit`'s maximum length of 32767 counts UTF-16 code units, while `Settings.Clip` counts Unicode characters, so a text with characters outside the Basic Multilingual Plane is cut later in the model than in the program.
- Text mode: reading in text mode is taken to drop every carriage return before lines are split at newlines.
- Focus and keyboard navigation that could set a current entry on their own are not modelled. Adding entries leaves the current entry as it is.
- `removeSnapshot` and `checkAndPromptForSudo` are declared in `src/alpsnapgui.h` but have no definition, so they are not modelled. `src/settingsdialog.h` is out of step with the `.cpp` file, and the model follows the `.cpp`.
- Settings.SaveLoadRoundTrip: a value holding '"' or a line break does not come back unchanged. The lemma requires such values to be absent. `Settings.ParseSavedLines` states what the saved lines load as for any values; a value holding a line break adds lines to the file.

## Findings

| source | as written | input that shows it | evidently intended | confidence | as-written member | corrected member |
|---|---|---|---|---|---|---|
| src/alpsnapgui.cpp:64, 197-200 | a change of current entry enables restore from the entry alone, although runScriptCommand disabled both buttons (lines 94-95) until the command finishes (lines 113-114) | a list with two ids; restore the first, then select the second while it runs: restore is enabled. Restoring again and letting one command fail enables create while the other still runs | restore stays disabled while a command runs, so at most one command runs and both buttons stay disabled meanwhile | high, not executed | MainWindow.AlpSnapGui.SetCurrentAsWritten | MainWindow.AlpSnapGui.SetCurrent |

`MainWindow.ReselectWhileRunning` and `MainWindow.OverlappingRestores` build the two states with the handler as written. The corrected handler is `MainWindow.AlpSnapGui.HandleRestoreButtonState`, and `MainWindow.ReselectWhileRunningCorrected` runs the same events with it. Every event method except the as-written selection keeps `MainWindow.AlpSnapGui.Guarded`.
