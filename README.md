# Out of the Dark: screen and section state machines

This project models, in Dafny, the two versions of the game's screen state
machine and proves properties about them.

- **Section controller** (`src/cpp/game.cpp`, module `SectionGame`). `Game`
  owns exactly one active section and caches the identity it was built for
  (`Menu`, `MazeBuilder`, `SaveSlot1`..`SaveSlot3`). On every `update()` it
  replaces the section with a new one built for the identity the section
  reports. It does so only when that identity differs from the cached one
  and the section's transition sound is not playing. A save-slot identity
  builds a gameplay section with the matching save-slot string and slot
  index. `render()` keeps a frame counter and a displayed FPS value. That
  value is resampled every `frameRate / 4` frames and clamped to the cap.
  The section is an object with two observable fields: the name it reports
  and its sound status.
- **Legacy screen machine** (`game.cpp`, module `ScreenGame`). One `Game`
  object switches its screen name among `title_screen`, `play_screen` and
  `settings_screen`. Each screen's input handler drains the event queue and
  acts on button presses. The settings screen writes single settings
  fields. Its back button persists the settings file. `getAllSaves` lists the
  save files that exist.
- **Shared pieces.** `Config` is the settings record with a field-by-field
  view. `SettingsFile` is the settings file as a token stream, read with
  C++ stream semantics. `FpsDisplay` holds the FPS sampling rule that both
  `render()` functions use.

Each class's methods are specified against pure functions: `Transition`
for `SectionGame.Game.Update`, and `Step`/`Drain`/`Input` for the legacy
input handlers. The properties are proved as lemmas about those functions.

Modelling choices:

- Inputs replace everything the driver cannot see. That covers the FPS
  measured from the wall clock (`Update(measuredFps)`, `SetFps`). It covers
  what the active section's own input handling did (`SectionInput`:
  reported name, sound status, shared settings, window closed, and the
  frame-rate cap it set on the window, if any). It covers the button a mouse
  press landed on (`Button`), the contents of files, and whether the
  settings file can be opened for writing.
- Files are typed tokens: `Word` for a key, `Number` for a number or a
  flag, `Line` for a `getline` text. A failed stream or end of file leaves
  the target unchanged. A non-number read as a number stores 0 or `false`.
  A number other than 0 or 1 read as a `bool` stores `true` and fails. A
  missing file reads like an empty one.
- Once the window is closed, SFML's `pollEvent` returns nothing. So the
  events left in the queue after a close or a Quit have no effect.
- `game.h`, `settings.h`, `section.h` and the concrete sections (`menu.cpp`,
  `gameplay.cpp`, `maze_builder.cpp`) are not part of this model. Because of
  that, four things are assumed. The counters start at 0. The default
  settings are a constructor parameter. Integers are unbounded. A freshly
  built section reports its own identity (gameplay for slot N reports
  `SaveSlotN`) with its sound stopped.
- `loadSettingsStruct` reads a key word before each save-slot line but never
  checks it. The writer of those lines is in `menu.cpp`, outside this model.
  `StructRoundTrip` uses `SAVE_SLOT_N,` as key words; any word would do.

Points where the code does something other than what its comments and
names suggest. The model follows the code in each of them, except for the
zero sampling period, which it corrects:

- The cached identity `m_sectionName` is not kept equal to the section's
  reported name. The section reports a different name as soon as the user
  asks to leave, and the cached one only catches up when the sound is
  over. What the code does keep is `Matches`: the live section is the kind
  built for the cached identity. `Transition` preserves it, and
  `SectionGame.Game.Valid` holds it.
- Neither `render()` guards its sampling period `frameRate / 4` against 0,
  and neither settings reader checks the frame rate it reads. A frame rate
  that is not a number reads as 0, so switching the readout on makes
  `render()` divide by zero. This is recorded under "## Findings"; the
  model resamples every frame where the period would be 0.
- `Game::load` in `game.cpp` tests `settings_screen` twice (lines 59-68). The
  second branch can never run.
- The doc comment of `isDone` (src/cpp/game.cpp:187) says it returns true
  while the game runs. The code (line 191) returns true once the window is
  closed, and so does the model.
- `updateSettings` (game.cpp:337) never checks that the settings file
  opened. When it did not, nothing is written and the old file stays; the
  model has this as `Machine.writable`.

## Model

| member | source | states |
|---|---|---|
| Config.Set | game.cpp:637-696 | writing one settings field gives it the new value |
| Config.SetElsewhere | game.cpp:637-696 | writing one settings field leaves every other field as it was |
| SettingsFile.ReadValue | src/cpp/game.cpp:209-222 | a stream extraction yields a value of the field's type; on a failed stream it changes nothing and consumes nothing |
| SettingsFile.Encode | game.cpp:339-343 | the file holds one `KEY, value` pair per field in the given order: key word at position 2i, value token at 2i+1 |
| SettingsFile.SettingsText | game.cpp:339-343 | the file `updateSettings` writes holds a key token and a value token for each of the five entries |
| SettingsFile.SettingsTextLayout | game.cpp:339-343 | that file is, in order, PLAY_MUSIC, PLAY_AUDIO, DIFFICULTY, FRAME_RATE and SHOW_FPS, each key followed by its value, flags written as 1 or 0 |
| SettingsFile.LoadSettings | game.cpp:314-326 | `loadSettings` reads the five entries into the settings and never touches the save slots |
| SettingsFile.LoadSettingsStruct | src/cpp/game.cpp:203-223 | a missing or empty file leaves every setting, save slots included, as it was |
| SettingsFile.StructReadsLikeLoadSettings | src/cpp/game.cpp:209-213 | whatever the file holds, `loadSettingsStruct` reads the five entries exactly as `loadSettings` does |
| SettingsFile.LoadFieldsFrame | src/cpp/game.cpp:209-222 | a sequence of extractions changes no field it does not extract into |
| SettingsFile.PrefixRead | src/cpp/game.cpp:209-222 | extractions that follow others do not change the fields only the earlier ones read |
| SettingsFile.LoadEncodedThen | game.cpp:320-324 | entries read from their own encoding come back, and reading then continues with the tokens that follow |
| SettingsFile.LoadEncoded | game.cpp:320-324 | reading fields back from their own encoding overwrites exactly those fields with the encoded values |
| SettingsFile.OverlayAt | game.cpp:320-324 | after that read, a field holds the file's value exactly when it is one of the fields read, and its prior value otherwise |
| SettingsFile.LoadFromFailed | src/cpp/game.cpp:209-222 | once the stream has failed, the remaining extractions leave the settings unchanged |
| SettingsFile.RoundTrip | game.cpp:314-351 | `loadSettings` of the file written by `updateSettings` gives back the five values written, in PLAY_MUSIC, PLAY_AUDIO, DIFFICULTY, FRAME_RATE, SHOW_FPS order, and keeps the save slots |
| SettingsFile.OverlayFileOrder | game.cpp:320-324 | overwriting the five entries with those of another record keeps the save slots |
| SettingsFile.StructRoundTrip | src/cpp/game.cpp:203-223 | a file laid out as the five entries followed by three save-slot lines reads back into exactly the settings it encodes |
| SettingsFile.MissingFileKeepsSettings | game.cpp:316-325 | reading a missing or empty settings file with `loadSettings` leaves every setting at its prior value |
| SettingsFile.EmptyFileReadsNothing | src/cpp/game.cpp:205-222 | any sequence of extractions from an empty stream changes nothing |
| SettingsFile.UnreadableFrameRateReadsZero | game.cpp:323 | `loadSettings` of a file whose frame rate is not a number gives frame rate 0, and leaves the readout flag as it was because the stream has failed |
| SettingsFile.StructUnreadableFrameRateReadsZero | src/cpp/game.cpp:212 | `loadSettingsStruct` of the same file gives frame rate 0 and leaves the readout flag as it was |
| FpsDisplay.SamplePeriod | src/cpp/game.cpp:146 | the sampling period is never 0: a quarter of the cap truncated toward zero (between `frameRate / 4` bounds for caps of 4 or more, and for caps of -4 or less), and 1 for caps in between |
| FpsDisplay.WrittenPeriod | game.cpp:133 | the divisor as written, C++ `frameRate / 4`, truncates toward zero and is 0 exactly for caps strictly between -4 and 4 |
| FpsDisplay.NextDisplayedFps | src/cpp/game.cpp:143-153 | on a sample frame with the readout shown, the displayed FPS becomes the minimum of the measured FPS and the cap; otherwise it is unchanged |
| FpsDisplay.HiddenReadoutFrozen | game.cpp:133-141 | with `showFps` off, the displayed FPS stays the same over any number of renders |
| FpsDisplay.CapKept | src/cpp/game.cpp:146-152 | a displayed FPS within the cap stays within it over any number of renders while the cap is unchanged |
| FpsDisplay.CapReachedWithinQuarterSecond | src/cpp/game.cpp:145-152 | with the readout shown, after as many renders as the sampling period's size (`frameRate / 4` for a cap of 4 or more), the displayed FPS is within the cap, whatever it was before and whatever was measured |
| SectionGame.SectionFor | src/cpp/game.cpp:87-106 | the section built for an identity reports that identity; it is gameplay exactly for the save-slot identities, with the matching slot string and index |
| SectionGame.Transition | src/cpp/game.cpp:84-106 | the state changes exactly when the reported name differs from the cached one and the sound is not Playing; after a change the cached name is the reported one, the new section is built for it, reports it, and the section kind matches the cached name |
| SectionGame.TransitionSettles | src/cpp/game.cpp:84-86 | an update right after an update changes nothing |
| SectionGame.HeldWhilePlaying | src/cpp/game.cpp:84 | over any number of frames in which the sound plays, neither the section nor the cached name changes |
| SectionGame.TransitionAfterSound | src/cpp/game.cpp:84-106 | a section that asked to leave is replaced on the first frame after its sound stops, by the section built for the identity it asked for |
| SectionGame.PlaySlotTwo | src/cpp/game.cpp:99-102 | from the menu, asking for slot 2 and waiting for the click sound yields a gameplay section built from `saveSlot2` and index 2 |
| SectionGame.Section.constructor | src/cpp/game.cpp:87-106 | a new section reports its own identity and no sound is playing |
| SectionGame.Section.Report | src/cpp/game.cpp:126 | the section's report becomes what its own input handling produced |
| SectionGame.Game.constructor | src/cpp/game.cpp:12-23 | the cached name is Menu and the active section is a fresh Menu; the settings are the file's read over the defaults; the window frame-rate limit is the loaded cap |
| SectionGame.Game.HandleInput | src/cpp/game.cpp:124-127 | the section's report, the shared settings, the window's open flag and its frame-rate cap (when the section set one) become what the section's handler produced; the cached name, the section object, the cap otherwise and the counters are unchanged |
| SectionGame.Game.Update | src/cpp/game.cpp:81-112 | the new driver state is `Transition` of the old one, so the kind invariant is kept; a transition allocates a fresh section and otherwise the section object is the same; the measured FPS is recorded |
| SectionGame.Game.Render | src/cpp/game.cpp:139-165 | the displayed FPS follows `NextDisplayedFps`, the frame counter grows by exactly 1, and the section and the kind invariant are kept |
| SectionGame.Game.IsDone | src/cpp/game.cpp:189-192 | the game is done exactly when the window is not open |
| ScreenGame.Dispatch | game.cpp:78-92 | a handler is chosen exactly for the three known screen names, and it is the handler of that name |
| ScreenGame.Input | game.cpp:78-115 | on any other screen name, handling input changes nothing |
| ScreenGame.CellValue | game.cpp:631-698 | the settings buttons: left column flags on, difficulty 0, 30 FPS; middle column flags off, difficulty 1, 60 FPS; right column only 120 FPS; each value has its field's type |
| ScreenGame.PressCell | game.cpp:631-698 | a settings button sets exactly its row's field to its fixed value and leaves every other field unchanged; a cell without a button changes nothing |
| ScreenGame.Persist | game.cpp:335-351 | `updateSettings` applies the cap and, when the file opens, writes the settings text as the settings file; it writes no other file, and when the open fails no file at all; screen, settings and window are kept |
| ScreenGame.Step | game.cpp:440-713 | one event: Close closes the window; on the title screen Play goes to `play_screen`, Settings to `settings_screen` and Quit closes the window; on the play screen the back button goes to `title_screen` and the save-slot cards do nothing; on the settings screen a cell writes its field and the back button persists and returns to the title; any other press does nothing; the window is never reopened |
| ScreenGame.Drain | game.cpp:443-713 | draining the queue does nothing once the window is closed, never reopens it, and writes no file but the settings file |
| ScreenGame.ScreenStaysKnown | game.cpp:440-713 | draining events leaves the screen as it was or on one of the three known screens |
| ScreenGame.KnownScreenKept | game.cpp:78-92 | input on a known screen leaves the game on a known screen |
| ScreenGame.TitleKeepsSettings | game.cpp:440-482 | the title screen's handler never changes the settings, the files or the frame-rate cap |
| ScreenGame.PlayOnlyGoesBack | game.cpp:496-543 | the play screen's handler can only move to the title screen; its save-slot cards change neither the screen nor the settings |
| ScreenGame.CloseEndsGame | game.cpp:443-448 | a close event anywhere in the queue leaves the window closed |
| ScreenGame.DomainKept | game.cpp:631-698 | settings with difficulty in {0, 1} and cap in {30, 60, 120} stay so under any handler and any events |
| ScreenGame.LeavingSettingsPersists | game.cpp:699-708 | the settings back button goes to the title screen and applies the cap; when the file opens, the file it writes reads back as the settings in effect, and otherwise the files are as they were |
| ScreenGame.OpenSettingsPress | game.cpp:465-471 | on the title screen, the settings button moves to `settings_screen` and changes nothing else |
| ScreenGame.ShowFpsPress | game.cpp:654-658 | on the settings screen, the left Show FPS button switches the readout on and changes nothing else |
| ScreenGame.ZeroPeriodReachable | game.cpp:133 | starting the game with a settings file whose frame rate is not a number, opening the settings and switching the readout on reaches a state whose sampling divisor is 0 |
| ScreenGame.Game.constructor | game.cpp:14-25 | starts on `title_screen` with the settings file read over the defaults; the window cap and the files are as given |
| ScreenGame.Game.HandleInput | game.cpp:78-92 | the new state is `Input` of the old state and the events |
| ScreenGame.Game.TitleScreenInput | game.cpp:440-482 | the loop's effect is `Drain` under the title handler: Play goes to `play_screen`, Settings goes to `settings_screen`, Quit and Close close the window |
| ScreenGame.Game.PlayScreenInput | game.cpp:496-543 | the loop's effect is `Drain` under the play handler: the back button goes to `title_screen` |
| ScreenGame.Game.SettingsScreenInput | game.cpp:616-713 | the loop's if-chains on column and row have exactly the effect given by the `CellValue` table; the back button persists and returns to the title screen |
| ScreenGame.Game.UpdateSettings | game.cpp:335-351 | the new state is `Persist` of the old one: the settings file becomes the five-entry encoding of the settings when it can be opened for writing, and the window's cap becomes the frame rate |
| ScreenGame.Game.GetAllSaves | game.cpp:360-385 | lists exactly the existing save files among one.save, two.save and three.save, in that order, without repeats, at most three |
| ScreenGame.Game.SetFps | game.cpp:272-275 | records the measured frame rate and changes nothing else |
| ScreenGame.Game.Render | game.cpp:124-153 | the displayed FPS follows `NextDisplayedFps`, the frame counter grows by exactly 1, and the rest of the state is unchanged |
| ScreenGame.Game.IsDone | game.cpp:302-305 | the game is done exactly when the window is not open |

## Left out

- Asset loading (fonts, textures, sounds, music) and its `std::exit(1)` on failure (src/cpp/game.cpp:46-68, game.cpp:36-69 and the `*ScreenLoad` functions). These are file I/O with a fatal exit. The model assumes every asset loads.
- Background music and sound effects (`m_music`, `playSoundBuffer`, stopping the music in `updateSettings`): audio playback. A section's sound status is an input.
- The legacy `Game::update` (game.cpp:101-115) and the `*ScreenUpdate` functions. They only pick the background texture, so nothing they do is modelled; the dispatch on screen names they share with `handleInput` is `Dispatch`.
- Rendering (`renderBackground`, `renderSettings`, `clearScreen`, drawing the FPS text): pure drawing.
- Pixel hit-testing in the input handlers. A press carries the abstract button it hit. Regions that overlap across screens are not compared.
- `getFps` (game.cpp:260-263): a getter; the model's `fps` field is readable directly.
- The wall-clock FPS measurement (src/cpp/game.cpp:110-111): a clock and floating point. The measured FPS is an integer input, and the float-to-integer conversion of the displayed value is not modelled.
- Section internals: the concrete `Menu`, `MazeBuilder` and `Gameplay` classes are not part of this model; their `update()` is taken to leave the two observed fields alone.
- SectionGame.Game.Render and ScreenGame.Game.Render: for a cap strictly between -4 and 4 with the readout shown, the source takes a remainder by zero, which C++ leaves undefined; the model resamples every frame there instead (see "## Findings"). For every other cap they follow the source.
- Integer widths: `m_frameCount` and the settings fields are unbounded here (the header declaring their types is not part of this model), so counter wrap-around is not modelled.
- The settings-file token model does not capture character-level details: a token of the wrong kind read by `getline` is a failed read yielding an empty string, and a save-slot line with no space after its key is not distinguished.

## Findings

| source | as written | input that shows it | evidently intended | confidence | as-written member | corrected member |
|---|---|---|---|---|---|---|
| game.cpp:133 | `m_frameCount % (m_settings->frameRate / 4)`, with the frame rate as `loadSettings` read it (game.cpp:323) and no check | a settings file whose FRAME_RATE entry is not a number (say `FRAME_RATE, sixty`): it reads as 0, and pressing the left Show FPS button makes the divisor `0 / 4 == 0` | the readout is resampled on a defined schedule for every frame rate, for instance with a sampling period of at least 1 | medium, not executed | FpsDisplay.WrittenPeriod, ScreenGame.ZeroPeriodReachable | FpsDisplay.SamplePeriod, FpsDisplay.CapReachedWithinQuarterSecond |
| src/cpp/game.cpp:146 | `m_frameCount % (m_settings->frameRate / 4)`, with the frame rate as `loadSettingsStruct` read it (line 212) and no check | the same file read by `loadSettingsStruct`: the frame rate is 0 and the readout flag keeps its default, so when that default is on the divisor is 0 at the first render (the defaults are not part of this model) | the readout is resampled on a defined schedule for every frame rate, for instance with a sampling period of at least 1 | medium, not executed | FpsDisplay.WrittenPeriod, SettingsFile.StructUnreadableFrameRateReadsZero | FpsDisplay.SamplePeriod, FpsDisplay.CapReachedWithinQuarterSecond |
