/**
 * The shared `Settings` record of the game and a field-by-field view of it.
 * A `Field` names one entry of the record; `Get` and `Set` read and write one
 * entry, so that the settings file, the settings screen and the lemmas about
 * them can speak of "exactly this field, and no other".
 */
module Config {

  /** User preferences, shared by the game driver and the active screen. */
  datatype Settings = Settings(
    playMusic: bool,
    playAudio: bool,
    difficulty: int,
    frameRate: int,
    showFps: bool,
    saveSlot1: string,
    saveSlot2: string,
    saveSlot3: string)

  datatype Field =
    | PlayMusic | PlayAudio | Difficulty | FrameRate | ShowFps
    | SaveSlot1 | SaveSlot2 | SaveSlot3

  /** The value of one field: a flag, a number, or a line of text. */
  datatype Value = Flag(b: bool) | Count(n: int) | Text(s: string)

  /** Whether `v` has the shape field `f` holds. */
  predicate Fits(f: Field, v: Value)
  {
    match f
    case PlayMusic | PlayAudio | ShowFps => v.Flag?
    case Difficulty | FrameRate => v.Count?
    case SaveSlot1 | SaveSlot2 | SaveSlot3 => v.Text?
  }

  function Get(s: Settings, f: Field): (v: Value)
    ensures Fits(f, v)
  {
    match f
    case PlayMusic => Flag(s.playMusic)
    case PlayAudio => Flag(s.playAudio)
    case Difficulty => Count(s.difficulty)
    case FrameRate => Count(s.frameRate)
    case ShowFps => Flag(s.showFps)
    case SaveSlot1 => Text(s.saveSlot1)
    case SaveSlot2 => Text(s.saveSlot2)
    case SaveSlot3 => Text(s.saveSlot3)
  }

  /** Writes `v` into field `f`; `SetElsewhere` says every other field is kept. */
  function Set(s: Settings, f: Field, v: Value): (r: Settings)
    requires Fits(f, v)
    ensures Get(r, f) == v
  {
    match f
    case PlayMusic => s.(playMusic := v.b)
    case PlayAudio => s.(playAudio := v.b)
    case Difficulty => s.(difficulty := v.n)
    case FrameRate => s.(frameRate := v.n)
    case ShowFps => s.(showFps := v.b)
    case SaveSlot1 => s.(saveSlot1 := v.s)
    case SaveSlot2 => s.(saveSlot2 := v.s)
    case SaveSlot3 => s.(saveSlot3 := v.s)
  }

  /** Writing field `f` leaves every other field as it was. */
  lemma SetElsewhere(s: Settings, f: Field, v: Value, g: Field)
    requires Fits(f, v) && g != f
    ensures Get(Set(s, f, v), g) == Get(s, g)
  {
  }

  /** Two records are equal when they agree on every field. */
  lemma Extensionality(a: Settings, b: Settings)
    requires forall f :: Get(a, f) == Get(b, f)
    ensures a == b
  {
    assert Get(a, PlayMusic) == Get(b, PlayMusic) && Get(a, PlayAudio) == Get(b, PlayAudio);
    assert Get(a, Difficulty) == Get(b, Difficulty) && Get(a, FrameRate) == Get(b, FrameRate);
    assert Get(a, ShowFps) == Get(b, ShowFps) && Get(a, SaveSlot1) == Get(b, SaveSlot1);
    assert Get(a, SaveSlot2) == Get(b, SaveSlot2) && Get(a, SaveSlot3) == Get(b, SaveSlot3);
  }
}
