/**
 * The section-based game driver. `Game` owns exactly one active `Section`
 * and caches the identity it was built for. Every `Update` compares the
 * identity the section reports with the cached one; when they differ and
 * the section's transition sound is not playing, the section is replaced
 * by a new one built for the reported identity.
 *
 * A concrete section (menu, maze builder, gameplay) is modelled only by
 * what the driver observes of it: the identity it reports and the status of
 * its sound. What its own input handling does to these, to the shared
 * settings and to the window (closing it, setting its frame-rate cap) is an
 * input of `HandleInput`.
 */
module SectionGame {
  import opened Wrappers
  import Config
  import SettingsFile
  import FpsDisplay

  datatype SectionName = Menu | MazeBuilder | SaveSlot1 | SaveSlot2 | SaveSlot3

  datatype SoundStatus = Stopped | Paused | Playing

  type SlotIndex = n: int | 1 <= n <= 3 witness 1

  /** Which concrete section an object is, with what gameplay was built from. */
  datatype SectionKind =
    | MenuSection
    | MazeBuilderSection
    | GameplaySection(saveSlot: string, slot: SlotIndex)

  function SlotName(n: SlotIndex): SectionName
  {
    if n == 1 then SaveSlot1 else if n == 2 then SaveSlot2 else SaveSlot3
  }

  /** The save-slot string of the settings that slot `n` is built from. */
  function SlotPath(s: Config.Settings, n: SlotIndex): string
  {
    if n == 1 then s.saveSlot1 else if n == 2 then s.saveSlot2 else s.saveSlot3
  }

  /** The identity a section of this kind reports until the user asks to leave it. */
  function OwnName(k: SectionKind): SectionName
  {
    match k
    case MenuSection => Menu
    case MazeBuilderSection => MazeBuilder
    case GameplaySection(_, n) => SlotName(n)
  }

  /**
   * The section built for identity `name`: a menu, a maze builder, or a
   * gameplay section given the matching save-slot string and slot index.
   */
  function SectionFor(name: SectionName, s: Config.Settings): (k: SectionKind)
    ensures OwnName(k) == name
    ensures k.GameplaySection? <==> name in {SaveSlot1, SaveSlot2, SaveSlot3}
    ensures k.GameplaySection? ==> k.saveSlot == SlotPath(s, k.slot)
  {
    match name
    case Menu => MenuSection
    case MazeBuilder => MazeBuilderSection
    case SaveSlot1 => GameplaySection(s.saveSlot1, 1)
    case SaveSlot2 => GameplaySection(s.saveSlot2, 2)
    case SaveSlot3 => GameplaySection(s.saveSlot3, 3)
  }

  /** The active section as the driver sees it. */
  class Section {
    const kind: SectionKind
    /** What `getSectionName()` returns. */
    var name: SectionName
    /** What `soundStatus()` returns. */
    var sound: SoundStatus

    constructor (kind: SectionKind)
      ensures this.kind == kind && name == OwnName(kind) && sound == Stopped
    {
      this.kind := kind;
      name := OwnName(kind);
      sound := Stopped;
    }

    /** The section's own input handling and audio moved it to this report. */
    method Report(name: SectionName, sound: SoundStatus)
      modifies this
      ensures this.name == name && this.sound == sound
    {
      this.name := name;
      this.sound := sound;
    }
  }

  /** The driver's cached identity together with what its section reports. */
  datatype Snapshot = Snapshot(cached: SectionName, kind: SectionKind, reported: SectionName, sound: SoundStatus)

  /** The section alive is the one built for the cached identity. */
  predicate Matches(s: Snapshot)
  {
    OwnName(s.kind) == s.cached
  }

  /** The transition rule of `update()`. */
  function Transition(s: Snapshot, settings: Config.Settings): (t: Snapshot)
    ensures t != s <==> s.reported != s.cached && s.sound != Playing
    ensures s.sound == Playing ==> t == s
    ensures t != s ==> t.cached == s.reported && t.reported == t.cached && t.sound == Stopped
    ensures t != s ==> t.kind == SectionFor(s.reported, settings)
    ensures t != s ==> Matches(t)
    ensures Matches(s) ==> Matches(t)
  {
    if s.reported != s.cached && s.sound != Playing then
      Snapshot(s.reported, SectionFor(s.reported, settings), s.reported, Stopped)
    else s
  }

  /** A second update right after the first changes nothing. */
  lemma TransitionSettles(s: Snapshot, settings: Config.Settings)
    ensures Transition(Transition(s, settings), settings) == Transition(s, settings)
  {
  }

  /**
   * Successive frames: before each update, the section's sound has the
   * status given for that frame.
   */
  function Frames(s: Snapshot, settings: Config.Settings, sounds: seq<SoundStatus>): Snapshot
    decreases |sounds|
  {
    if sounds == [] then s
    else Frames(Transition(s.(sound := sounds[0]), settings), settings, sounds[1..])
  }

  /** However many frames the sound keeps playing, no transition happens. */
  lemma {:induction false} HeldWhilePlaying(s: Snapshot, settings: Config.Settings, n: nat)
    ensures Frames(s, settings, seq(n, _ => Playing)) == if n == 0 then s else s.(sound := Playing)
    decreases n
  {
    if n > 0 {
      var sounds := seq(n, _ => Playing);
      assert sounds[1..] == seq(n - 1, _ => Playing);
      HeldWhilePlaying(s.(sound := Playing), settings, n - 1);
    }
  }

  /**
   * A section that asked to leave while its click sound plays is replaced,
   * on the first frame its sound has stopped, by the section built for the
   * identity it asked for, which reports that identity.
   */
  lemma {:induction false} TransitionAfterSound(s: Snapshot, settings: Config.Settings, n: nat)
    requires s.reported != s.cached
    ensures Frames(s, settings, seq(n, _ => Playing) + [Stopped])
            == Snapshot(s.reported, SectionFor(s.reported, settings), s.reported, Stopped)
    decreases n
  {
    var sounds := seq(n, _ => Playing) + [Stopped];
    if n == 0 {
      assert sounds == [Stopped];
    } else {
      assert sounds[1..] == seq(n - 1, _ => Playing) + [Stopped];
      TransitionAfterSound(s.(sound := Playing), settings, n - 1);
    }
  }

  /**
   * From the menu, pressing "play slot 2" and waiting for the click to end
   * yields a gameplay section built from slot 2's save data.
   */
  lemma PlaySlotTwo(settings: Config.Settings, n: nat)
    ensures Frames(Snapshot(Menu, MenuSection, SaveSlot2, Playing), settings, seq(n, _ => Playing) + [Stopped])
            == Snapshot(SaveSlot2, GameplaySection(settings.saveSlot2, 2), SaveSlot2, Stopped)
  {
    TransitionAfterSound(Snapshot(Menu, MenuSection, SaveSlot2, Playing), settings, n);
  }

  /**
   * What the active section's `handleInput()` did during one frame: its new
   * report, the shared settings, whether it closed the window, and the
   * frame-rate cap it set on the window, if it set one.
   */
  datatype SectionInput = SectionInput(
    name: SectionName, sound: SoundStatus, settings: Config.Settings, closesWindow: bool,
    framerateLimit: Option<int>)

  class Game {
    var section: Section
    var sectionName: SectionName
    var settings: Config.Settings
    var windowOpen: bool
    var framerateLimit: int
    var fps: int
    var displayedFps: int
    var frameCount: nat

    ghost predicate Valid()
      reads this, section
    {
      Matches(Snap())
    }

    function Snap(): Snapshot
      reads this, section
    {
      Snapshot(sectionName, section.kind, section.name, section.sound)
    }

    /**
     * Starts on a fresh menu, loads the settings file into the default
     * settings, and caps the window's frame rate. Font and music loading
     * are not modelled.
     */
    constructor (windowOpen: bool, settingsFile: seq<SettingsFile.Token>, defaults: Config.Settings)
      ensures Valid() && fresh(section)
      ensures sectionName == Menu && section.kind == MenuSection
      ensures section.name == Menu && section.sound == Stopped
      ensures settings == SettingsFile.LoadSettingsStruct(settingsFile, defaults)
      ensures framerateLimit == settings.frameRate && this.windowOpen == windowOpen
      ensures fps == 0 && displayedFps == 0 && frameCount == 0
    {
      var menu := new Section(MenuSection);
      var loaded := SettingsFile.LoadSettingsStruct(settingsFile, defaults);
      section, sectionName := menu, Menu;
      settings := loaded;
      framerateLimit := loaded.frameRate;
      this.windowOpen := windowOpen;
      fps, displayedFps, frameCount := 0, 0, 0;
    }

    /** `handleInput()`: the active section handles this frame's input. */
    method HandleInput(input: SectionInput)
      requires Valid()
      modifies this, section
      ensures Valid() && section == old(section) && sectionName == old(sectionName)
      ensures section.name == input.name && section.sound == input.sound
      ensures settings == input.settings
      ensures windowOpen == (old(windowOpen) && !input.closesWindow)
      ensures framerateLimit == if input.framerateLimit.Some? then input.framerateLimit.value else old(framerateLimit)
      ensures fps == old(fps) && displayedFps == old(displayedFps) && frameCount == old(frameCount)
    {
      section.Report(input.name, input.sound);
      settings := input.settings;
      if input.closesWindow {
        windowOpen := false;
      }
      if input.framerateLimit.Some? {
        framerateLimit := input.framerateLimit.value;
      }
    }

    /**
     * `update()`: applies the transition rule, then records the FPS measured
     * since the previous update.
     */
    method Update(measuredFps: int)
      requires Valid()
      modifies this
      ensures Valid()
      ensures Snap() == Transition(old(Snap()), settings)
      ensures old(section.name != sectionName && section.sound != Playing) ==> fresh(section)
      ensures old(section.name == sectionName || section.sound == Playing) ==> section == old(section)
      ensures fps == measuredFps
      ensures settings == old(settings) && windowOpen == old(windowOpen)
      ensures framerateLimit == old(framerateLimit)
      ensures displayedFps == old(displayedFps) && frameCount == old(frameCount)
    {
      if sectionName != section.name && section.sound != Playing {
        sectionName := section.name;
        var next := new Section(SectionFor(sectionName, settings));
        section := next;
      }
      fps := measuredFps;
    }

    /**
     * `render()`: refreshes the FPS readout and counts the frame. Where the
     * source's sampling period `frameRate / 4` is 0 the readout is resampled
     * every frame.
     */
    method Render()
      requires Valid()
      modifies this
      ensures Valid() && settings == old(settings)
      ensures displayedFps == FpsDisplay.NextDisplayedFps(
        old(displayedFps), fps, settings.frameRate, settings.showFps, old(frameCount))
      ensures frameCount == old(frameCount) + 1
      ensures section == old(section) && sectionName == old(sectionName)
      ensures windowOpen == old(windowOpen)
      ensures framerateLimit == old(framerateLimit) && fps == old(fps)
    {
      if settings.showFps {
        if frameCount % FpsDisplay.SamplePeriod(settings.frameRate) == 0 {
          displayedFps := fps;
          if displayedFps > settings.frameRate {
            displayedFps := settings.frameRate;
          }
        }
      }
      frameCount := frameCount + 1;
    }

    /** `isDone()`: the game is over exactly when its window is closed. */
    function IsDone(): (done: bool)
      reads this
      ensures done <==> !windowOpen
    {
      !windowOpen
    }
  }
}
