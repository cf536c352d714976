# player — a Dafny model

`player` is a small music player built on raylib. It comes in three C
generations and one earlier Rust version.

- **The playlist player (src/plug.c).** It keeps one `Plug` record: an
  application screen (waiting for a file, or the main screen); a playlist of
  decoded streams with a current index; the volume; a popup message with its
  start time; the song name text; and a seek bar with a cursor. It then runs
  `plug_frame` once per frame:
  - a resized window lays the seek bar out again;
  - every dropped music file is loaded and appended to the playlist;
  - on the main screen, the keys SPACE, LEFT, RIGHT, UP, DOWN, N and P
    pause, seek, change the volume and move through the playlist;
  - on the main screen, a click on the bar seeks;
  - the time played, the cursor and the progress ratio `time_check` are
    updated;
  - the popup message expires.
- **The hot-reloadable single-track plug (plug.c, driven by main.c).** It
  holds one stream. A drop replaces the stream, SPACE pauses, LEFT and
  RIGHT seek, and each frame reads the time played back.
- **The stand-alone single-track player (play.c).** Its `main` runs the same
  frame step on local variables. After the loop it unloads the stream
  unconditionally.
- **The Rust version (old_version_in_rust).**
  - `main` checks the one command-line argument: it expands `~`, requires a
    regular file with one of four extensions, and takes the name after the
    last path delimiter.
  - A terminal front end (`UI`) turns key presses into `Action`s for the
    player thread. It advances the position it shows by what that thread
    reports.

The model is organised as follows:

- **`Playlist`** is the playlist player as a state machine on values, with
  its invariant and its properties.
- **`PlaylistPlug.Plug`** is a class with the `Plug` fields and one method
  per function of src/plug.c. Each method is proved to move the fields
  exactly as the state machine step does.
- **`SingleTrack`** is the frame step that plug.c and play.c share.
  - `HotPlug.Plug` is plug.c's record updated in place.
  - `PlayMain` is play.c's `main` with its locals.
- **`SongName`** is `get_song_name` / `collect_from_end`: an array
  algorithm proved against a specification function.
- **`Formats`** is `is_music` and the extension tables.
- **`Colour`** is `rgba` over a model of `strtol`.
- **`Audio`** is the part of raylib the player calls, as plain values.
- **`Tui`** is `UI` of ui.rs: a class proved against a pure step function.
- **`Cli`** is the string logic of main.rs.

The three C copies of the name function behave the same and are modelled
once: `get_song_name` in src/plug.c:392-407 (unbraced loop body) and in
plug.c:122-140 (braced), and `collect_from_end` in play.c:158-176. The name
never includes `input[0]`, even for a path with no delimiter. It is cut to
`output_size - 1` characters from its end. The Rust program keeps the whole
final component. `Cli.NoDelimiterKeepsPath` states where the two differ.

Quirks of src/plug.c are modelled as written:

- N stops and unloads the entry it is about to start, not the current one.
- P never moves `curr`.
- `plug_get_nth_music` refuses index 0.
- `music_volume` starts at 0, because `plug_init` never sets it.
- A click on the bar seeks by `pl.length` (src/plug.c:180-183), the length
  of the last stream loaded and not of the current entry; the time update
  (src/plug.c:61-85) divides by the same length.

In plug.c and play.c, a music file that fails to decode leaves
`music_loaded` set over a stream without frames. With nothing played, the
next `time_check` is then 0/0, which is NaN. This is modelled with
`Audio.Ratio`.

## Model

| member | source | states |
|---|---|---|
| Audio.Max | src/main.h:14 | `MAX` is the larger argument and is one of them |
| Audio.Min | src/main.h:15 | `MIN` is the smaller argument and is one of them |
| Audio.TimeCheck | plug.c:111-112 | `time_played / length` capped at 1 lies in [0, 1] when finite; it is NaN exactly for 0/0; it is the quotient when the time played is within a positive length, and 1 past the end |
| Formats.Supported | src/plug.c:409-416 | definition: some listed extension is a suffix of the path; `IsMusic` is proved against it |
| Formats.IsMusic | src/plug.c:409-416 | `is_music` returns true exactly when the path ends with one of the table's extensions |
| Formats.TablesWellFormed | src/main.h:38 | both C tables hold `SUPPORTED_FORMATS_CAP` = 6 entries, each a dot and at least two more characters |
| Formats.SupportedPathLength | src/plug.c:19-26 | a path either C table accepts has at least three characters |
| Formats.SupportedBySameExtensions | plug.c:10-18 | acceptance depends on which extensions a table lists, not on their order |
| Formats.CTablesAgree | play.c:10-19 | the playlist table and the single-track table accept exactly the same paths |
| Formats.RustAndCListsDiffer | old_version_in_rust/src/main.rs:17 | `.flac` is accepted only by the Rust list, `.xm` only by the C lists |
| SongName.FinalComponent | old_version_in_rust/src/main.rs:40-46 | definition of the last path component; `FinalComponentSpec` and `FinalComponentAt` characterise it |
| SongName.ComponentStart | src/plug.c:397 | scanning down stops at the start or just after a delimiter, with no delimiter in between |
| SongName.FinalComponentSpec | old_version_in_rust/src/main.rs:40-46 | the last path component is a delimiter-free suffix, either the whole path or preceded by a delimiter |
| SongName.FinalComponentAt | old_version_in_rust/src/main.rs:40-46 | any delimiter-free suffix that starts the path or follows a delimiter is the last component (uniqueness) |
| SongName.ScanStop | src/plug.c:397 | the first loop stops at index 0 or at a delimiter, and sees no delimiter above that point |
| SongName.SongName | src/plug.c:392-407 | definition; `SongNameIsSuffix`, `SongNameFits` and `SongNameTruncation` state its properties, and `GetSongName` is proved against it |
| SongName.SongNameIsSuffix | src/plug.c:392-407 | the name is a suffix of the input that never reaches `input[0]` |
| SongName.SongNameFits | src/plug.c:398 | the name holds no delimiter and fits `output_size` with its NUL |
| SongName.SongNameTruncation | src/plug.c:397-399 | the name is the last component of `input[1..]` when that fits, and otherwise its last `output_size - 1` characters |
| SongName.ScanStopFindsComponent | src/plug.c:397 | what follows the scan's stop is the last component of `input[1..]` |
| SongName.ReversePrefix | src/plug.c:402-406 | the swap loop turns the back-to-front copy into the characters in order and leaves the rest of the buffer alone |
| SongName.CopyFromEnd | plug.c:127-132 | the first loop copies the input from its end, back to front, up to the stop or `output_size - 1` characters |
| SongName.GetSongName | src/plug.c:392-407 | the output holds `SongName(input)` followed by a NUL, with no NUL inside, and nothing past the NUL is written |
| SongName.ReadSongName | play.c:69-70 | a `char[SONG_NAME_CAP]` buffer filled by `collect_from_end` holds `SongName(path)` |
| Colour.HexRun | plug.c:146 | `strtol` stops at the first character that is not a hexadecimal digit |
| Colour.HexValue | plug.c:146 | definition of the base-16 value of a digit string; `RgbaOfTriplet` and `RgbaRoundTrip` rest on it |
| Colour.Strtol16 | plug.c:146 | `strtol(.., 16)` lies in [0, LONG_MAX] |
| Colour.Rgba | plug.c:142-151 | alpha is always 255 |
| Colour.RgbaOfTriplet | plug.c:146-148 | for "#RRGGBB", each channel is the byte its digit pair spells |
| Colour.RgbaRoundTrip | play.c:123-132 | `rgba` inverts writing an opaque colour as "#RRGGBB" |
| Colour.BackgroundColour | src/main.h:44 | `BACKGROUND_COLOR` is {24, 24, 24, 255}, the colour src/plug.c writes literally at line 30 |
| Playlist.CurrMusic | src/plug.c:338-343 | an entry is returned exactly when `curr` indexes the list, and it is entry `curr` |
| Playlist.NthMusic | src/plug.c:345-350 | entry `n` is returned exactly when 0 < n < count, so never entry 0 |
| Playlist.IsMouseOnTrack | src/plug.c:418-424 | a point is on the bar exactly when it is within its x range and within three thicknesses of it vertically |
| Playlist.InitTrack | src/plug.c:313-336 | the bar is horizontal, centred in the window width, and nonempty for a positive width; its thickness is 5; the cursor starts at the left end, or keeps its x on a re-layout |
| Playlist.Snprintf | src/plug.c:376 | `snprintf` keeps at most `size - 1` characters, a prefix of the text, and all of a text that fits |
| Playlist.ClickPosition | src/plug.c:180-183 | a click within the bar seeks to a position in [0, length] |
| Playlist.CursorOnBar | src/plug.c:71-78 | while the time played is within the length, the cursor stays on the bar |
| Playlist.Initial | src/plug.c:28-48 | definition of `plug_init`'s state; `InitialInv` states its properties |
| Playlist.StopCurrent | src/plug.c:359-365 | definition; `StopCurrentEffect` states what it changes |
| Playlist.LoadMusic | src/plug.c:352-381 | definition; `LoadMusicRejects` and `LoadMusicAccepts` state both outcomes |
| Playlist.DropFile | src/plug.c:149-154 | definition; `DropFileInv` and `DropFileContents` state its effect |
| Playlist.DropFiles | src/plug.c:144-164 | definition; `DropFilesInv` and `DropFilesContents` state its effect |
| Playlist.HandleKey | src/plug.c:191-259 | definition; `HandleKeyInv` and the per-key lemmas (`SeekBackClamps` to `PrevKeepsCurrent`) state its effect |
| Playlist.HandleClick | src/plug.c:166-189 | definition; `HandleClickInv` and `ClickSeeksWithinLength` state its effect |
| Playlist.UpdatePlayback | src/plug.c:61-85 | definition; `UpdatePlaybackInv` states its effect |
| Playlist.ExpirePopup | src/plug.c:120-129 | definition; `PopupExpiry` states its effect |
| Playlist.Reinit | src/plug.c:261-267 | definition: only the seek bar is laid out again |
| Playlist.AfterDrops | src/plug.c:52-54 | definition: the state after the optional re-layout and the drops of a frame |
| Playlist.Frame | src/plug.c:50-92 | definition; `FrameInv`, `FrameAfterDrops`, `MainScreenIsFinal`, `FramePlaylistGrowth` and `InputIgnoredWhileWaiting` state its properties |
| Playlist.Free | src/plug.c:383-390 | definition; `FreeSilencesCurrent` states its effect |
| Playlist.LoadMusicRejects | src/plug.c:354-358 | a path that is not music, or a stream without frames, is refused and nothing changes |
| Playlist.LoadMusicAccepts | src/plug.c:352-381 | an accepted stream sets the main screen, the length, the loaded flag and the song name, clears pause, moves `curr` on exactly when the current entry plays, and is handed back playing at volume 0.1 |
| Playlist.StopCurrentEffect | src/plug.c:359-365 | making room stops and unloads only the current entry, and only when it plays, then moves `curr` on by one |
| Playlist.DropFileInv | src/plug.c:149-159 | one drop keeps the invariant, grows the list by one exactly when the file loads, and then shows the main screen |
| Playlist.DropFilesInv | src/plug.c:144-164 | all the drops keep the invariant, grow the list by exactly the number of files that load, and show the main screen once one has loaded |
| Playlist.LoadedStreams | src/plug.c:148-154 | definition: the streams `plug_load_music` hands back, in drop order; there is one per file that loads, each at the default volume |
| Playlist.DropFileContents | src/plug.c:149-154 | one drop keeps every entry, except that the current one may be stopped and unloaded, and appends the started stream exactly when the file loads |
| Playlist.DropFilesContents | src/plug.c:144-164 | after all the drops the list is the old entries followed by `LoadedStreams`, each entry as it was or stopped and unloaded, and the last stream appended is left as started |
| Playlist.HandleKeyInv | src/plug.c:191-259 | every key keeps the invariant, the screen, the list's length, the length and the seek bar |
| Playlist.HandleClickInv | src/plug.c:166-189 | a click keeps the invariant, the screen, the list's length and `curr` |
| Playlist.UpdatePlaybackInv | src/plug.c:61-85 | the time update keeps the invariant; on the main screen it records the time played, `time_check` becomes the time played over the length capped at 1, and the cursor stays on the bar |
| Playlist.PopupExpiry | src/plug.c:120-129 | the popup stays shown exactly while its time has not run out, and nothing else changes |
| Playlist.FrameAfterDrops | src/plug.c:50-92 | after the drops of a frame (`AfterDrops`), keys, clicks, the time update and the popup keep the invariant, the screen and the list's length |
| Playlist.FrameInv | src/plug.c:50-92 | `plug_frame` keeps the invariant |
| Playlist.InitialInv | src/plug.c:28-48 | `plug_init` starts on the waiting screen with an empty playlist and the invariant holds |
| Playlist.MainScreenIsFinal | src/plug.c:52-59 | after a frame the main screen is shown exactly when it was before or a dropped file loaded |
| Playlist.FramePlaylistGrowth | src/plug.c:50-92 | a frame grows the list by exactly the number of dropped files that load; which streams they are is `DropFilesContents` |
| Playlist.InputIgnoredWhileWaiting | src/plug.c:56-59 | on the waiting screen the key and the click change nothing |
| Playlist.SeekBackClamps | src/plug.c:200-209 | LEFT seeks back by the step, not below 0, and shows the popup; nothing else changes |
| Playlist.SeekForwardClamps | src/plug.c:210-219 | RIGHT seeks forward by the step, not past the length, and shows the popup; nothing else changes |
| Playlist.VolumeKeysClamp | src/plug.c:220-237 | UP and DOWN move the volume by the step within [0, 1] and give the current stream that volume |
| Playlist.SeekAndVolumeNeedPlayingStream | src/plug.c:200-237 | LEFT, RIGHT, UP and DOWN act only on a current entry that plays, and then show the popup from now |
| Playlist.SpaceTwice | src/plug.c:193-199 | two SPACEs restore the paused flag and leave a live current stream playing exactly when not paused |
| Playlist.NextAdvancesByOne | src/plug.c:238-247 | N moves `curr` on by one, without wrap-around, exactly when a next entry exists, and then starts it |
| Playlist.NextLeavesPreviousEntry | src/plug.c:238-247 | N leaves the entry it moves away from unchanged, and unloads the next entry when that one is already playing |
| Playlist.PrevKeepsCurrent | src/plug.c:248-258 | P never changes `curr`; it acts only from entry 2 on, stopping a playing current entry and starting the one before |
| Playlist.ClickSeeksWithinLength | src/plug.c:166-189 | a click on the bar while the current entry plays moves the cursor under the mouse and seeks that entry to `ClickPosition`, a time in [0, length], changing nothing else; any other click does nothing |
| Playlist.ClickPositionScale | src/plug.c:180-183 | the seek target is proportional to the click: the bar's left end seeks to 0, its right end to `pl.length`, and a point further right never seeks earlier |
| Playlist.TrackHitTest | src/plug.c:418-424 | both ends of the bar are on it; a point left of it, or more than three thicknesses below it, is not |
| Playlist.FreeSilencesCurrent | src/plug.c:383-390 | `plug_free` clears the loaded flag, leaves the current entry silent and changes no other entry |
| PlaylistPlug.Plug.constructor | src/plug.c:28-48 | the record after `plug_init` is the initial state and satisfies the invariant |
| PlaylistPlug.Plug.InitTrack | src/plug.c:313-336 | the fields change as `Playlist.InitTrack` says, and only the seek bar changes |
| PlaylistPlug.Plug.Reinit | src/plug.c:261-267 | the re-layout keeps the invariant and changes only the seek bar |
| PlaylistPlug.Plug.StopCurrentStream | src/plug.c:359-365 | the fields move as `StopCurrent` says |
| PlaylistPlug.Plug.LoadMusic | src/plug.c:352-381 | the fields and the returned stream are those of `Playlist.LoadMusic` |
| PlaylistPlug.Plug.HandleDroppedFile | src/plug.c:149-159 | one drop moves the fields as `DropFile` says and keeps the invariant |
| PlaylistPlug.Plug.HandleDroppedFiles | src/plug.c:144-164 | the drop loop moves the fields as `DropFiles` says and keeps the invariant |
| PlaylistPlug.Plug.HandleKeys | src/plug.c:191-259 | the key handler moves the fields as `HandleKey` says and keeps the invariant |
| PlaylistPlug.Plug.TogglePause | src/plug.c:193-199 | the SPACE block is the SPACE step |
| PlaylistPlug.Plug.Seek | src/plug.c:200-219 | the LEFT and RIGHT blocks are the seek steps |
| PlaylistPlug.Plug.ChangeVolume | src/plug.c:220-237 | the UP and DOWN blocks are the volume steps |
| PlaylistPlug.Plug.PlayNext | src/plug.c:238-247 | the N block is the N step |
| PlaylistPlug.Plug.PlayPrevious | src/plug.c:248-258 | the P block is the P step |
| PlaylistPlug.Plug.HandleButtons | src/plug.c:166-189 | the click handler moves the fields as `HandleClick` says and keeps the invariant |
| PlaylistPlug.Plug.UpdatePlayback | src/plug.c:61-85 | the time update moves the fields as `UpdatePlayback` says and keeps the invariant |
| PlaylistPlug.Plug.DrawMainScreen | src/plug.c:120-129 | the popup check moves the fields as `ExpirePopup` says |
| PlaylistPlug.Plug.Frame | src/plug.c:50-92 | `plug_frame` moves the fields as `Playlist.Frame` says and keeps the invariant |
| PlaylistPlug.Plug.Free | src/plug.c:383-390 | `plug_free` moves the fields as `Playlist.Free` says |
| SingleTrack.NameText | plug.c:81-83 | definition; `NameTextFits` states that it fits its buffer |
| SingleTrack.Drop | plug.c:67-88 | definition; `DropInv`, `DropReadsFirstPathOnly`, `DropReleasesOnlyLoaded`, `LoadedNeedsFrames` and `FailedDropGivesNaN` state its effect |
| SingleTrack.PressKey | plug.c:90-104 | definition; `KeyInv`, `SpaceTwice` and `SeekClamps` state its effect |
| SingleTrack.Update | plug.c:106-113 | definition; `TimeCheckCapped` states its effect |
| SingleTrack.Frame | play.c:53-113 | definition; `FrameInv` and `TimeCheckCapped` state its properties |
| SingleTrack.RunFrames | play.c:53-113 | definition; `RunFramesInv` states its properties |
| SingleTrack.Free | plug.c:58-63 | definition; `FreeSilences` states its effect |
| SingleTrack.Shutdown | play.c:115 | definition; `ShutdownReleasesLast` states its effect |
| SingleTrack.NameTextFits | plug.c:81-83 | `"Song name: "` plus a name from a 256-byte buffer always fits the 512-byte name text, so `snprintf` never truncates it |
| SingleTrack.DropInv | plug.c:67-88 | the drop block keeps the invariant |
| SingleTrack.KeyInv | plug.c:90-104 | the key block keeps the invariant |
| SingleTrack.FrameInv | play.c:53-113 | one pass of the window loop keeps the invariant |
| SingleTrack.RunFramesInv | play.c:53-113 | any number of frames keeps the invariant |
| SingleTrack.InitialInv | plug.c:39-48 | the initial state satisfies the invariant: nothing loaded, not paused, no time played |
| SingleTrack.DropReadsFirstPathOnly | plug.c:69 | only the first dropped path matters |
| SingleTrack.DropReleasesOnlyLoaded | play.c:57-61 | a drop stops and unloads the old stream exactly when the first path is music and the loaded flag is set |
| SingleTrack.LoadedNeedsFrames | plug.c:75-79 | a drop sets the loaded flag only for a music path whose stream has frames, and never clears it |
| SingleTrack.FailedDropGivesNaN | play.c:63-67 | a music file that fails to decode leaves the loaded flag set, and with nothing played the next `time_check` is NaN |
| SingleTrack.TimeCheckCapped | play.c:98-106 | after a frame, a finite `time_check` is at most 1, and it is the time played over a positive length, capped at 1 |
| SingleTrack.SpaceTwice | play.c:78-81 | two SPACEs restore the pause flag and leave a live stream playing exactly when not paused |
| SingleTrack.SeekClamps | play.c:82-96 | on a playing stream LEFT seeks to exactly `MAX(t - step, 0)` and RIGHT to exactly `MIN(t + step, length)`, changing nothing else; a silent stream is left alone; LEFT never goes below 0 and RIGHT, from a time within the length, never past it |
| SingleTrack.FreeSilences | plug.c:58-63 | `plug_free` clears the loaded flag and leaves no stream playing, releasing a playing one |
| SingleTrack.ShutdownReleasesLast | play.c:115 | after the loop the last stream is released whatever its state |
| HotPlug.Plug.constructor | main.c:12 | the zero record followed by `plug_init` is the initial state |
| HotPlug.Plug.Init | plug.c:20-49 | `plug_init` resets the time, the ratio, the name text, both flags and the stream, and releases nothing |
| HotPlug.Plug.HandleDrop | plug.c:67-88 | the drop block moves the record as `SingleTrack.Drop` says and keeps the invariant |
| HotPlug.Plug.HandleKey | plug.c:90-104 | the key block moves the record as `PressKey` says and keeps the invariant |
| HotPlug.Plug.UpdateTime | plug.c:106-113 | the time block moves the record as `Update` says and keeps the invariant |
| HotPlug.Plug.Frame | plug.c:65-120 | `plug_frame` moves the record as `SingleTrack.Frame` says and keeps the invariant |
| HotPlug.Plug.Free | plug.c:58-63 | `plug_free` moves the record as `SingleTrack.Free` says |
| HotPlug.Run | main.c:59-69 | main.c leaves the record as `plug_free` after all the frames leaves it |
| PlayMain.Step | play.c:54-106 | one pass of the loop body moves the locals as `SingleTrack.Frame` says |
| PlayMain.Run | play.c:21-121 | `main` ends with the locals as the shutdown after all the frames leaves them |
| Tui.NewState | old_version_in_rust/src/ui.rs:31-49 | definition of `UI::new`'s state |
| Tui.OnEvent | old_version_in_rust/src/ui.rs:111-142 | definition; `OnEventInRange`, `OneActionPerKey`, `OnlyPressesCount` and `SpaceTwice` state its effect |
| Tui.Advance | old_version_in_rust/src/ui.rs:53-60 | definition; `AdvanceWraps` and `AdvanceInRange` state its effect |
| Tui.TickStep | old_version_in_rust/src/ui.rs:53-64 | definition; `TickStepNeverExits` states its properties |
| Tui.RunTicks | old_version_in_rust/src/ui.rs:51-68 | definition; `RunTicksInRange`, `ExitSentOnceAtEnd`, `IoErrorSendsNoExit` and `QuitEndsRun` state its properties |
| Tui.RunFails | old_version_in_rust/src/ui.rs:61-63 | definition: a pass fails through `?` before the exit flag is set |
| Tui.UI.constructor | old_version_in_rust/src/ui.rs:31-49 | `UI::new` is the new state and nothing has been sent |
| Tui.UI.HandleEvents | old_version_in_rust/src/ui.rs:111-142 | the fields and the actions sent are those of `OnEvent` |
| Tui.UI.Pass | old_version_in_rust/src/ui.rs:53-64 | one pass of the loop is `TickStep`, and it reports failure exactly when `draw`, `poll` or `read` fails (a `?` return) |
| Tui.UI.Run | old_version_in_rust/src/ui.rs:51-68 | `run` ends in `RunTicks`'s state, having sent `RunTicks`'s actions, and returns an error exactly when some pass failed before `q` (`RunFails`) |
| Tui.OnEventInRange | old_version_in_rust/src/ui.rs:120-135 | key events keep the volume in [0, 1] and the position in [0, len] |
| Tui.AdvanceInRange | old_version_in_rust/src/ui.rs:53-60 | a non-negative received value keeps the position in [0, len] |
| Tui.OneActionPerKey | old_version_in_rust/src/ui.rs:114-136 | each handled press sends exactly its matching action, `q` sends none and sets exit, and no key sends `Exit` |
| Tui.OnlyPressesCount | old_version_in_rust/src/ui.rs:113 | releases, repeats and other events change nothing and send nothing |
| Tui.SpaceTwice | old_version_in_rust/src/ui.rs:116-119 | two SPACEs restore the state and send two `Pause`s |
| Tui.AdvanceWraps | old_version_in_rust/src/ui.rs:54-58 | nothing moves while paused; a position at the end restarts from 0; otherwise the value is added, capped at the length |
| Tui.RunTicksInRange | old_version_in_rust/src/ui.rs:51-68 | a whole run keeps the ranges |
| Tui.ExitSentOnceAtEnd | old_version_in_rust/src/ui.rs:66 | `Exit` is sent at most once, only last, and exactly when the run ends with the exit flag set |
| Tui.RunTicksUnfold | old_version_in_rust/src/ui.rs:52-65 | before the exit flag is set, a run is one pass followed by the rest, unless that pass fails, in which case the run stops there and has failed |
| Tui.RunTicksStep | old_version_in_rust/src/ui.rs:52-65 | after any number of passes, one more pass either fails and ends the run with the state and actions so far, or carries the run one tick further |
| Tui.TickStepNeverExits | old_version_in_rust/src/ui.rs:53-64 | one pass sends at most one action, and never `Exit`; a failed pass sends nothing and leaves the exit flag alone |
| Tui.IoErrorSendsNoExit | old_version_in_rust/src/ui.rs:61-66 | a run that leaves through `?` sends no `Exit` and ends with the exit flag clear |
| Tui.QuitEndsRun | old_version_in_rust/src/ui.rs:115 | a `q` press ends the run: the rest is never looked at and only `Exit` is sent |
| Cli.Reverse | old_version_in_rust/src/main.rs:41 | the reversed string has the same length, with its characters in the opposite order |
| Cli.TakeWhileNot | old_version_in_rust/src/main.rs:42 | `take_while` keeps the longest prefix without the delimiter |
| Cli.MusicName | old_version_in_rust/src/main.rs:40-46 | definition; `MusicNameIsFinalComponent` ties it to `SongName.FinalComponent` |
| Cli.ExpandHome | old_version_in_rust/src/main.rs:25 | definition; `ExpandHomeNoTilde` and `ExpandHomeFirstOnly` state its effect |
| Cli.ReverseReverse | old_version_in_rust/src/main.rs:45 | reversing twice gives the string back |
| Cli.ReversePrefix | old_version_in_rust/src/main.rs:40-46 | the reverse of a prefix of the reverse is the matching suffix |
| Cli.MusicNameIsFinalComponent | old_version_in_rust/src/main.rs:40-46 | the name is exactly the last component of the path |
| Cli.MusicNameIsSuffix | old_version_in_rust/src/main.rs:40-46 | the name holds no delimiter and is a suffix of the path |
| Cli.NoDelimiterKeepsPath | old_version_in_rust/src/main.rs:40-46 | a path with no delimiter is its own name, while the C `get_song_name` drops its first character (one byte; the same thing for an ASCII path) |
| Cli.NoDelimiterDropsFirst | src/plug.c:397 | on a path with no delimiter that fits, `get_song_name` gives everything but the first character |
| Cli.ExpandHomeNoTilde | old_version_in_rust/src/main.rs:25 | without `~` the argument is unchanged |
| Cli.ExpandHomeFirstOnly | old_version_in_rust/src/main.rs:25 | only the first `~` is replaced by `HOME`; later ones stay |
| Cli.Start | old_version_in_rust/src/main.rs:20-32 | playback starts exactly for one argument, `HOME` set, a regular file and a listed extension; then the path is the expanded argument and the name is its last component |

## Left out

- Drawing, fonts and text layout are not modelled. This covers `DrawTextEx`,
  `center_text`, `MeasureTextEx`, the text positions of
  `plug_init_song_name`, `plug_init_song_time` and `plug_init_popup_msg`,
  and the parts of `plug_reinit` other than the seek bar. None of it feeds
  back into the player's state.
- The "Time played" text and the popup text (`snprintf` with `%.1f`) are not
  modelled, because float formatting is out of scope. Only the song name's
  `snprintf` is modelled.
- Floating point is modelled as real arithmetic, except for the NaN that 0/0
  gives `time_check`. `Playlist.CursorOnBar`, `Tui.AdvanceInRange` and the
  other range lemmas therefore do not account for rounding. The `as f32`
  cast of `SetVol` is not modelled.
- raylib internals are not visible.
  - `UpdateMusicStream` followed by `GetMusicTimePlayed` is modelled as the
    time played, which is an input of the frame.
  - `LoadMusicStream` is modelled as a stream given with each dropped path.
  - Playing or resuming a stream without an audio buffer (undecoded, or
    already unloaded) does nothing.
  - `StopMusicStream` rewinding the stream is not modelled.
- `IsFileExtension` is modelled as an exact, case-sensitive suffix test.
  raylib's own comparison is not part of this model.
- `IsKeyPressed` is modelled as one key per frame: the first, in the order
  the handlers test them, that is pressed.
- The window size, the clock (`GetTime`), the mouse and the dropped files
  are frame inputs. The window width is taken to be positive.
- `DEFAULT_MUSIC_SEEK_STEP`, `DEFAULT_MUSIC_VOLUME_STEP`,
  `SONG_VOLUME_MSG_DURATION` and `TEXT_CAP` are not defined in the headers
  of this model. `Playlist.Config` takes them as parameters, and requires
  `TEXT_CAP` to be at most 256, the size of the buffer `get_song_name`
  writes into. `Playlist.Config.Valid` also takes both steps to be
  non-negative; a negative step would turn UP into a volume decrease and
  LEFT into a forward seek, which the model does not cover.
- `DELIM` is a parameter: '/' on POSIX systems and '\\' on Windows.
- Hot reloading is not modelled. `dlopen`/`dlsym`/`dlclose` in main.c and
  src/main.c swap code, not the record. In main.c, `plug_update` then
  changes only the font size. src/main.c re-runs `plug_init` when `REINIT`
  is set (src/main.c:60). That resets `app_state` and zeroes the playlist
  (src/plug.c:45-47) but keeps `music_loaded`, `music_paused`,
  `music_volume`, `show_popup_msg` and `popup_msg_start_time`, and never
  stops or unloads the streams already loaded. The state it leaves is
  neither `Playlist.Initial` nor one that keeps `Playlist.Inv` (a loaded
  stream with an empty list), and this re-initialisation is not modelled.
  The `plug_pre_reload_t`/`plug_post_reload_t` typedefs have no
  implementation here.
- plug.h declares only `pause`, `music_loaded` and `music`, although plug.c
  uses more fields. `HotPlug.Plug` has the fields plug.c uses.
- play.c's uninitialised `Music music;` is modelled as the zero stream.
  Unloading it when nothing was ever loaded is undefined in C; the model
  only records the call.
- Freeing the playlist's `items` in `plug_free`, and the `TraceLog`/`printf`
  logging, are left out because they are memory management and I/O.
- `supported_extensions` prints to stderr and is left out.
- `rgba`'s `strtol` (section 7.22.1.4 of ISO C11) is modelled on a string
  that starts with its digits, saturating at `LONG_MAX`. Leading white
  space, a sign and a `0x` prefix are not modelled: `Colour.Strtol16` and
  `Colour.Rgba` read them as the end of the digits and give 0 for such a
  channel, where `strtol` would skip the white space, apply the sign or skip
  the prefix.
- The Rust player thread (player.rs) and its audio library are not modelled.
  It is taken to send non-negative seconds (`Tui.AdvanceInRange` requires
  this).
- Terminal set-up (tui.rs) and `render_frame` are not modelled.
- `Tui.UI.Run`: the terminal loop runs until `q`. The model runs over a
  finite script of loop passes; when the script ends before `q`, the window
  is still open and `Exit` is not sent.
- `Tui.UI.Run` reports an I/O failure as `false`, without the error value.
  After one, main.rs:58 discards the error, and `Exit` is never sent
  (`Tui.IoErrorSendsNoExit`). main.rs:59 then joins only the thread spawned
  at main.rs:53, which returns as soon as `Player::run` (player.rs:37-41)
  has started the output and input threads. `main` restores the terminal and
  returns, and the process ends with the player's threads still waiting for
  `Exit`. Those threads are not modelled.
- The C members read a Dafny `char` as one byte: `SongName`'s cut to
  `output_size - 1` counts bytes, and so do `is_music` and `rgba`. Rust's
  `chars()` in `Cli` counts Unicode scalar values.
  `Cli.NoDelimiterKeepsPath` and `Cli.NoDelimiterDropsFirst` compare the two
  where they agree, on paths whose characters are single bytes (ASCII); on
  other paths the C program drops only the first byte of a multi-byte
  character.
- `Cli.Start`: reading `HOME`, `metadata()` and the extension are as in
  main.rs. The environment and the file system are parameters. Everything
  after the checks (decoding, threads) is left out.
