/**
 * The earlier, string-keyed version of the game driver. One `Game` object
 * holds the name of the current screen (`title_screen`, `play_screen` or
 * `settings_screen`) and the settings, and each screen's input handler
 * drains the window's event queue, acting on button presses.
 *
 * Pixel hit-testing is abstracted away: a left mouse press carries the
 * button it landed on. Files are a map from path to token contents (see
 * `SettingsFile`); a path that is not in the map does not exist.
 */
module ScreenGame {
  import opened Wrappers
  import Config
  import SettingsFile
  import FpsDisplay

  const TitleScreen: string := "title_screen"
  const PlayScreen: string := "play_screen"
  const SettingsScreen: string := "settings_screen"

  datatype Screen = Title | Play | Options

  function ScreenName(h: Screen): string
  {
    match h
    case Title => TitleScreen
    case Play => PlayScreen
    case Options => SettingsScreen
  }

  /** Which handler `handleInput()` picks for a screen name, if any. */
  function Dispatch(name: string): (h: Option<Screen>)
    ensures h.Some? <==> name in {TitleScreen, PlayScreen, SettingsScreen}
    ensures h.Some? ==> ScreenName(h.value) == name
  {
    if name == TitleScreen then Some(Title)
    else if name == PlayScreen then Some(Play)
    else if name == SettingsScreen then Some(Options)
    else None
  }

  /** The three columns of option buttons on the settings screen. */
  datatype Column = LeftColumn | MiddleColumn | RightColumn

  datatype Button =
    | PlayGame | OpenSettings | Quit                           // title screen
    | SlotCard(slot: int) | PlayBack                           // play screen
    | SettingsCell(column: Column, row: Config.Field)          // settings screen
    | SettingsBack
    | Nothing                                                  // no button at all

  /** The buttons screen `h` shows; a press on any other button does nothing there. */
  predicate OnScreen(h: Screen, b: Button)
  {
    match h
    case Title => b == PlayGame || b == OpenSettings || b == Quit
    case Play => b.SlotCard? || b == PlayBack
    case Options => b.SettingsCell? || b == SettingsBack
  }

  /** A polled window event: the close button, a left mouse press, or anything else. */
  datatype Event = Closed | LeftPress(target: Button) | Ignored

  /**
   * The value a settings-screen cell writes into the field of its row. The
   * left column switches flags on and picks difficulty 0 and 30 frames per
   * second, the middle column switches flags off and picks difficulty 1 and
   * 60; the right column holds only the 120 frames-per-second button.
   */
  function CellValue(c: Column, row: Config.Field): (v: Option<Config.Value>)
    ensures v.Some? <==> (c != RightColumn && row in SettingsFile.FileOrder) || (c, row) == (RightColumn, Config.FrameRate)
    ensures v.Some? ==> Config.Fits(row, v.value)
    ensures v.Some? && v.value.Flag? ==> v.value.b == (c == LeftColumn)
    ensures v.Some? && row == Config.Difficulty ==> v.value.n == if c == LeftColumn then 0 else 1
    ensures v.Some? && row == Config.FrameRate ==>
      v.value.n == match c case LeftColumn => 30 case MiddleColumn => 60 case RightColumn => 120
  {
    match (c, row)
    case (LeftColumn, PlayMusic) => Some(Config.Flag(true))
    case (LeftColumn, PlayAudio) => Some(Config.Flag(true))
    case (LeftColumn, Difficulty) => Some(Config.Count(0))
    case (LeftColumn, FrameRate) => Some(Config.Count(30))
    case (LeftColumn, ShowFps) => Some(Config.Flag(true))
    case (MiddleColumn, PlayMusic) => Some(Config.Flag(false))
    case (MiddleColumn, PlayAudio) => Some(Config.Flag(false))
    case (MiddleColumn, Difficulty) => Some(Config.Count(1))
    case (MiddleColumn, FrameRate) => Some(Config.Count(60))
    case (MiddleColumn, ShowFps) => Some(Config.Flag(false))
    case (RightColumn, FrameRate) => Some(Config.Count(120))
    case _ => None
  }

  /** Pressing a settings cell writes its row's field, and only that field. */
  function PressCell(s: Config.Settings, c: Column, row: Config.Field): (r: Config.Settings)
    ensures forall g :: g != row ==> Config.Get(r, g) == Config.Get(s, g)
    ensures CellValue(c, row).Some? ==> Config.Get(r, row) == CellValue(c, row).value
    ensures CellValue(c, row).None? ==> r == s
  {
    forall g | g != row && CellValue(c, row).Some?
      ensures Config.Get(Config.Set(s, row, CellValue(c, row).value), g) == Config.Get(s, g)
    {
      Config.SetElsewhere(s, row, CellValue(c, row).value, g);
    }
    match CellValue(c, row)
    case Some(v) => Config.Set(s, row, v)
    case None => s
  }

  /** Values the settings screen offers: difficulty 0 or 1, a cap of 30, 60 or 120. */
  predicate InDomain(s: Config.Settings)
  {
    s.difficulty in {0, 1} && s.frameRate in {30, 60, 120}
  }

  const SettingsPath: string := "user_data/settings.csv"
  const SaveDirectory: string := "user_data/"
  const SaveNames: seq<string> := ["one.save", "two.save", "three.save"]

  /** The contents a read of `path` sees; a missing file reads as an empty stream. */
  function FileText(files: map<string, seq<SettingsFile.Token>>, path: string): seq<SettingsFile.Token>
  {
    if path in files then files[path] else []
  }

  /** The position of a save name in `SaveNames`. */
  function Rank(name: string): nat
  {
    if name == SaveNames[0] then 0 else if name == SaveNames[1] then 1 else 2
  }

  /**
   * The part of the game's state the input handlers read and write.
   * `writable` says whether the settings file can be opened for writing.
   */
  datatype Machine = Machine(
    screen: string,
    settings: Config.Settings,
    open: bool,
    files: map<string, seq<SettingsFile.Token>>,
    writable: bool,
    framerateLimit: int)

  /**
   * `updateSettings()`: writes the settings file and applies the frame-rate
   * cap. The open is not checked: when it fails, the writes go nowhere.
   */
  function Persist(m: Machine): (r: Machine)
    ensures r == m.(files := r.files, framerateLimit := r.framerateLimit)
    ensures r.framerateLimit == m.settings.frameRate
    ensures r.files - {SettingsPath} == m.files - {SettingsPath}
    ensures m.writable ==> SettingsPath in r.files && r.files[SettingsPath] == SettingsFile.SettingsText(m.settings)
    ensures !m.writable ==> r.files == m.files
  {
    m.(files := if m.writable then m.files[SettingsPath := SettingsFile.SettingsText(m.settings)] else m.files,
       framerateLimit := m.settings.frameRate)
  }

  /**
   * What one event does under the handler of screen `h`: the title screen's
   * buttons start a game, open the settings or quit; the play screen's back
   * button returns to the title; a settings cell writes its field and the
   * settings back button persists and returns to the title.
   */
  function Step(h: Screen, m: Machine, e: Event): (r: Machine)
    ensures e == Closed ==> r == m.(open := false)
    ensures e == Ignored || (e.LeftPress? && !OnScreen(h, e.target)) ==> r == m
    ensures h == Title && e == LeftPress(PlayGame) ==> r == m.(screen := PlayScreen)
    ensures h == Title && e == LeftPress(OpenSettings) ==> r == m.(screen := SettingsScreen)
    ensures h == Title && e == LeftPress(Quit) ==> r == m.(open := false)
    ensures h == Play && e.LeftPress? && e.target.SlotCard? ==> r == m
    ensures h == Play && e == LeftPress(PlayBack) ==> r == m.(screen := TitleScreen)
    ensures h == Options && e.LeftPress? && e.target.SettingsCell? ==>
      r == m.(settings := PressCell(m.settings, e.target.column, e.target.row))
    ensures h == Options && e == LeftPress(SettingsBack) ==> r == Persist(m).(screen := TitleScreen)
    ensures r.open ==> m.open
  {
    match e
    case Closed => m.(open := false)
    case Ignored => m
    case LeftPress(b) =>
      match h
      case Title =>
        (match b
         case PlayGame => m.(screen := PlayScreen)
         case OpenSettings => m.(screen := SettingsScreen)
         case Quit => m.(open := false)
         case _ => m)
      case Play =>
        (match b
         case PlayBack => m.(screen := TitleScreen)
         case _ => m)
      case Options =>
        (match b
         case SettingsCell(c, row) => m.(settings := PressCell(m.settings, c, row))
         case SettingsBack => Persist(m).(screen := TitleScreen)
         case _ => m)
  }

  /**
   * The handler of screen `h` draining `events`. Once the window is closed
   * polling yields nothing more, so the remaining events have no effect.
   */
  function Drain(h: Screen, m: Machine, events: seq<Event>): (r: Machine)
    ensures !m.open ==> r == m
    ensures r.open ==> m.open
    ensures r.writable == m.writable
    ensures r.files - {SettingsPath} == m.files - {SettingsPath}
    decreases |events|
  {
    if events == [] || !m.open then m
    else Drain(h, Step(h, m, events[0]), events[1..])
  }

  /** `handleInput()`: the current screen's handler drains the events; an unknown screen does nothing. */
  function Input(m: Machine, events: seq<Event>): (r: Machine)
    ensures Dispatch(m.screen).None? ==> r == m
  {
    match Dispatch(m.screen)
    case Some(h) => Drain(h, m, events)
    case None => m
  }

  /** Screen changes only ever go to one of the three known screens. */
  lemma {:induction false} ScreenStaysKnown(h: Screen, m: Machine, events: seq<Event>)
    ensures var r := Drain(h, m, events);
      r.screen == m.screen || r.screen in {TitleScreen, PlayScreen, SettingsScreen}
    decreases |events|
  {
    if events != [] && m.open {
      var m' := Step(h, m, events[0]);
      ScreenStaysKnown(h, m', events[1..]);
    }
  }

  /** Input on a known screen leaves the game on a known screen. */
  lemma KnownScreenKept(m: Machine, events: seq<Event>)
    requires Dispatch(m.screen).Some?
    ensures Dispatch(Input(m, events).screen).Some?
  {
    ScreenStaysKnown(Dispatch(m.screen).value, m, events);
  }

  /** The title screen never touches the settings, the files or the frame-rate cap. */
  lemma {:induction false} TitleKeepsSettings(m: Machine, events: seq<Event>)
    ensures var r := Drain(Title, m, events);
      r.settings == m.settings && r.files == m.files && r.framerateLimit == m.framerateLimit
    decreases |events|
  {
    if events != [] && m.open {
      TitleKeepsSettings(Step(Title, m, events[0]), events[1..]);
    }
  }

  /**
   * The play screen can only go back to the title screen; its save-slot
   * cards change neither the screen nor the settings.
   */
  lemma {:induction false} PlayOnlyGoesBack(m: Machine, events: seq<Event>)
    ensures var r := Drain(Play, m, events);
      r.settings == m.settings && r.files == m.files && r.framerateLimit == m.framerateLimit
      && (r.screen == m.screen || r.screen == TitleScreen) && (r.open ==> m.open)
    decreases |events|
  {
    if events != [] && m.open {
      PlayOnlyGoesBack(Step(Play, m, events[0]), events[1..]);
    }
  }

  /** A close event anywhere in the queue leaves the window closed. */
  lemma {:induction false} CloseEndsGame(h: Screen, m: Machine, events: seq<Event>)
    requires Closed in events
    ensures !Drain(h, m, events).open
    decreases |events|
  {
    if m.open {
      if events[0] != Closed {
        assert Closed in events[1..];
        CloseEndsGame(h, Step(h, m, events[0]), events[1..]);
      }
    }
  }

  /** Settings within the offered values stay within them, whatever is pressed. */
  lemma {:induction false} DomainKept(h: Screen, m: Machine, events: seq<Event>)
    requires InDomain(m.settings)
    ensures InDomain(Drain(h, m, events).settings)
    decreases |events|
  {
    if events != [] && m.open {
      var m' := Step(h, m, events[0]);
      if h == Options && events[0].LeftPress? && events[0].target.SettingsCell? {
        var c, row := events[0].target.column, events[0].target.row;
        assert Config.Get(m'.settings, Config.Difficulty) == Config.Get(m.settings, Config.Difficulty) || row == Config.Difficulty;
        assert Config.Get(m'.settings, Config.FrameRate) == Config.Get(m.settings, Config.FrameRate) || row == Config.FrameRate;
      }
      DomainKept(h, m', events[1..]);
    }
  }

  /**
   * The settings screen's back button writes the settings file, which the
   * next `loadSettings` reads back as the settings in effect, applies the
   * frame-rate cap, and returns to the title screen.
   */
  lemma LeavingSettingsPersists(m: Machine, prev: Config.Settings)
    ensures var r := Step(Options, m, LeftPress(SettingsBack));
      r.screen == TitleScreen && r.settings == m.settings && r.framerateLimit == m.settings.frameRate
      && (m.writable ==>
            SettingsPath in r.files && SettingsFile.LoadSettings(r.files[SettingsPath], prev)
             == m.settings.(saveSlot1 := prev.saveSlot1, saveSlot2 := prev.saveSlot2, saveSlot3 := prev.saveSlot3))
      && (!m.writable ==> r.files == m.files)
  {
    var r := Step(Options, m, LeftPress(SettingsBack));
    var text := SettingsFile.SettingsText(m.settings);
    assert r == Persist(m).(screen := TitleScreen);
    if m.writable {
      assert r.files[SettingsPath] == text;
      SettingsFile.RoundTrip(m.settings, prev);
    }
  }

  /** On the title screen, the settings button opens the settings screen. */
  lemma OpenSettingsPress(m: Machine)
    requires m.open && m.screen == TitleScreen
    ensures Input(m, [LeftPress(OpenSettings)]) == m.(screen := SettingsScreen)
  {
    var e := LeftPress(OpenSettings);
    assert [e][1..] == [];
    assert Input(m, [e]) == Drain(Title, Step(Title, m, e), []);
  }

  /** On the settings screen, the left Show FPS button switches the readout on and nothing else. */
  lemma ShowFpsPress(m: Machine)
    requires m.open && m.screen == SettingsScreen
    ensures Input(m, [LeftPress(SettingsCell(LeftColumn, Config.ShowFps))])
            == m.(settings := m.settings.(showFps := true))
  {
    var e := LeftPress(SettingsCell(LeftColumn, Config.ShowFps));
    assert [e][1..] == [];
    assert Input(m, [e]) == Drain(Options, Step(Options, m, e), []);
    var s' := PressCell(m.settings, LeftColumn, Config.ShowFps);
    assert CellValue(LeftColumn, Config.ShowFps) == Some(Config.Flag(true));
    Config.Extensionality(s', m.settings.(showFps := true));
  }

  /**
   * From the title screen, with a settings file whose frame rate is not a
   * number, opening the settings and switching the FPS readout on reaches a
   * state in which `render()` divides by `frameRate / 4 == 0`.
   */
  lemma ZeroPeriodReachable(v: Config.Settings, key: string, word: string, rest: seq<SettingsFile.Token>,
                            defaults: Config.Settings, files: map<string, seq<SettingsFile.Token>>,
                            writable: bool, frameLimit: int)
    requires FileText(files, SettingsPath) == SettingsFile.UnreadableFrameRate(v, key, word, rest)
    ensures var start := Machine(TitleScreen, SettingsFile.LoadSettings(FileText(files, SettingsPath), defaults),
                                 true, files, writable, frameLimit);
      var m := Input(Input(start, [LeftPress(OpenSettings)]), [LeftPress(SettingsCell(LeftColumn, Config.ShowFps))]);
      m.screen == SettingsScreen && m.settings.showFps && FpsDisplay.WrittenPeriod(m.settings.frameRate) == 0
  {
    SettingsFile.UnreadableFrameRateReadsZero(v, key, word, rest, defaults);
    var loaded := SettingsFile.LoadSettings(FileText(files, SettingsPath), defaults);
    var start := Machine(TitleScreen, loaded, true, files, writable, frameLimit);
    OpenSettingsPress(start);
    ShowFpsPress(start.(screen := SettingsScreen));
  }

  class Game {
    var screenName: string
    var settings: Config.Settings
    var windowOpen: bool
    var files: map<string, seq<SettingsFile.Token>>
    /** Whether the settings file can be opened for writing. */
    var settingsWritable: bool
    var framerateLimit: int
    var fps: int
    var displayedFps: int
    var frameCount: nat

    function State(): Machine
      reads this
    {
      Machine(screenName, settings, windowOpen, files, settingsWritable, framerateLimit)
    }

    /**
     * Starts on the title screen with the settings read from the settings
     * file over `defaults`. Asset loading is not modelled.
     */
    constructor (windowOpen: bool, files: map<string, seq<SettingsFile.Token>>,
                 writable: bool, defaults: Config.Settings, frameLimit: int)
      ensures screenName == TitleScreen
      ensures settings == SettingsFile.LoadSettings(FileText(files, SettingsPath), defaults)
      ensures this.windowOpen == windowOpen && this.files == files && framerateLimit == frameLimit
      ensures settingsWritable == writable
      ensures fps == 0 && displayedFps == 0 && frameCount == 0
    {
      screenName := TitleScreen;
      this.windowOpen, this.files, framerateLimit := windowOpen, files, frameLimit;
      settingsWritable := writable;
      fps, displayedFps, frameCount := 0, 0, 0;
      settings := SettingsFile.LoadSettings(FileText(files, SettingsPath), defaults);
      new;
      var _ := GetAllSaves();
    }

    /** `handleInput()`: runs the input handler of the current screen. */
    method HandleInput(events: seq<Event>)
      modifies this
      ensures State() == Input(old(State()), events)
      ensures fps == old(fps) && displayedFps == old(displayedFps) && frameCount == old(frameCount)
    {
      if screenName == TitleScreen {
        TitleScreenInput(events);
      } else if screenName == PlayScreen {
        PlayScreenInput(events);
      } else if screenName == SettingsScreen {
        SettingsScreenInput(events);
      }
    }

    method TitleScreenInput(events: seq<Event>)
      modifies this
      ensures State() == Drain(Title, old(State()), events)
      ensures fps == old(fps) && displayedFps == old(displayedFps) && frameCount == old(frameCount)
    {
      var i := 0;
      while i < |events| && windowOpen
        invariant i <= |events|
        invariant Drain(Title, old(State()), events) == Drain(Title, State(), events[i..])
        invariant fps == old(fps) && displayedFps == old(displayedFps) && frameCount == old(frameCount)
      {
        ghost var before := State();
        var e := events[i];
        if e.Closed? {
          windowOpen := false;
        }
        if e.LeftPress? {
          if e.target == PlayGame {
            screenName := PlayScreen;
          } else if e.target == OpenSettings {
            screenName := SettingsScreen;
          } else if e.target == Quit {
            windowOpen := false;
          }
        }
        assert State() == Step(Title, before, e);
        assert events[i..][1..] == events[i + 1..];
        i := i + 1;
      }
    }

    method PlayScreenInput(events: seq<Event>)
      modifies this
      ensures State() == Drain(Play, old(State()), events)
      ensures fps == old(fps) && displayedFps == old(displayedFps) && frameCount == old(frameCount)
    {
      var i := 0;
      while i < |events| && windowOpen
        invariant i <= |events|
        invariant Drain(Play, old(State()), events) == Drain(Play, State(), events[i..])
        invariant fps == old(fps) && displayedFps == old(displayedFps) && frameCount == old(frameCount)
      {
        ghost var before := State();
        var e := events[i];
        if e.Closed? {
          windowOpen := false;
        }
        if e.LeftPress? {
          // The save-slot cards only log that they were pressed.
          if e.target == PlayBack {
            screenName := TitleScreen;
          }
        }
        assert State() == Step(Play, before, e);
        assert events[i..][1..] == events[i + 1..];
        i := i + 1;
      }
    }

    method SettingsScreenInput(events: seq<Event>)
      modifies this
      ensures State() == Drain(Options, old(State()), events)
      ensures fps == old(fps) && displayedFps == old(displayedFps) && frameCount == old(frameCount)
    {
      var i := 0;
      while i < |events| && windowOpen
        invariant i <= |events|
        invariant Drain(Options, old(State()), events) == Drain(Options, State(), events[i..])
        invariant fps == old(fps) && displayedFps == old(displayedFps) && frameCount == old(frameCount)
      {
        ghost var before := State();
        var e := events[i];
        if e.Closed? {
          windowOpen := false;
        }
        if e.LeftPress? {
          match e.target {
            case SettingsCell(c, row) =>
              if c == LeftColumn {
                if row == Config.PlayMusic {
                  settings := settings.(playMusic := true);
                } else if row == Config.PlayAudio {
                  settings := settings.(playAudio := true);
                } else if row == Config.Difficulty {
                  settings := settings.(difficulty := 0);
                } else if row == Config.FrameRate {
                  settings := settings.(frameRate := 30);
                } else if row == Config.ShowFps {
                  settings := settings.(showFps := true);
                }
              } else if c == MiddleColumn {
                if row == Config.PlayMusic {
                  settings := settings.(playMusic := false);
                } else if row == Config.PlayAudio {
                  settings := settings.(playAudio := false);
                } else if row == Config.Difficulty {
                  settings := settings.(difficulty := 1);
                } else if row == Config.FrameRate {
                  settings := settings.(frameRate := 60);
                } else if row == Config.ShowFps {
                  settings := settings.(showFps := false);
                }
              } else if row == Config.FrameRate {
                settings := settings.(frameRate := 120);
              }
            case SettingsBack =>
              UpdateSettings();
              screenName := TitleScreen;
            case _ =>
          }
        }
        assert State() == Step(Options, before, e);
        assert events[i..][1..] == events[i + 1..];
        i := i + 1;
      }
    }

    /**
     * `updateSettings()`: writes the five settings, if the file could be
     * opened, and applies the frame-rate cap.
     */
    method UpdateSettings()
      modifies this
      ensures State() == Persist(old(State()))
      ensures fps == old(fps) && displayedFps == old(displayedFps) && frameCount == old(frameCount)
    {
      if settingsWritable {
        files := files[SettingsPath := SettingsFile.SettingsText(settings)];
      }
      framerateLimit := settings.frameRate;
    }

    /**
     * `getAllSaves()`: the names of the save files that exist, in the fixed
     * order one, two, three.
     */
    method GetAllSaves() returns (saves: seq<string>)
      ensures |saves| <= |SaveNames|
      ensures forall n :: n in saves <==> n in SaveNames && SaveDirectory + n in files
      ensures forall i, j :: 0 <= i < j < |saves| ==> Rank(saves[i]) < Rank(saves[j])
    {
      saves := [];
      if SaveDirectory + "one.save" in files {
        saves := saves + ["one.save"];
      }
      if SaveDirectory + "two.save" in files {
        saves := saves + ["two.save"];
      }
      if SaveDirectory + "three.save" in files {
        saves := saves + ["three.save"];
      }
    }

    /** `setFps()`: records a measured frame rate. */
    method SetFps(fps: nat)
      modifies this
      ensures this.fps == fps && State() == old(State())
      ensures displayedFps == old(displayedFps) && frameCount == old(frameCount)
    {
      this.fps := fps;
    }

    /**
     * `render()`: refreshes the FPS readout and counts the frame. Where the
     * source's sampling period `frameRate / 4` is 0 the readout is resampled
     * every frame.
     */
    method Render()
      modifies this
      ensures State() == old(State())
      ensures displayedFps == FpsDisplay.NextDisplayedFps(
        old(displayedFps), fps, settings.frameRate, settings.showFps, old(frameCount))
      ensures frameCount == old(frameCount) + 1 && fps == old(fps)
    {
      if settings.showFps && frameCount % FpsDisplay.SamplePeriod(settings.frameRate) == 0 {
        displayedFps := fps;
        if displayedFps > settings.frameRate {
          displayedFps := settings.frameRate;
        }
      }
      frameCount := frameCount + 1;
    }

    /** `isDone()`: the game is over exactly when its window is closed. */
    function IsDone(): (done: bool)
      reads this
      ensures done <==> !windowOpen
    {
      !windowOpen
    }
  }
}
