/**
 * The settings file `settings.csv` as a sequence of whitespace-separated
 * tokens, and the C++ stream extractions that read it back.
 *
 * Each line of the file is `KEY, value`: the key with its comma is one
 * `Word`, a flag or a number is a `Number` (streams print `bool` as 0 or 1),
 * and a save-slot path, read with `getline`, is a `Line`.
 *
 * A `Reader` is an input stream positioned in the file. Extraction follows
 * the C++11 stream rules: once the stream has failed, or at end of file,
 * an extraction leaves its target unchanged and the stream stays failed; a
 * token that is not a number, read as a number, stores 0 (or `false`); a
 * number other than 0 or 1 read as a `bool` stores `true` and fails.
 */
module SettingsFile {
  import opened Config

  datatype Token = Word(text: string) | Number(value: int) | Line(text: string)

  datatype Reader = Reader(rest: seq<Token>, failed: bool)

  /** `stream >> parameterName`: skips one token whatever it holds. */
  function ReadWord(r: Reader): (r': Reader)
    ensures r'.failed <==> r.failed || r.rest == []
    ensures !r'.failed ==> r'.rest == r.rest[1..]
  {
    if r.failed || r.rest == [] then r.(failed := true) else r.(rest := r.rest[1..])
  }

  /** `stream >> n` for an integer target currently holding `prev`. */
  function ReadNumber(r: Reader, prev: int): (Reader, int)
  {
    if r.failed || r.rest == [] then (r.(failed := true), prev)
    else match r.rest[0]
      case Number(n) => (r.(rest := r.rest[1..]), n)
      case _ => (r.(failed := true), 0)
  }

  /** `stream >> b` for a `bool` target currently holding `prev`. */
  function ReadBool(r: Reader, prev: bool): (Reader, bool)
  {
    if r.failed || r.rest == [] then (r.(failed := true), prev)
    else match r.rest[0]
      case Number(n) =>
        if n == 0 then (r.(rest := r.rest[1..]), false)
        else if n == 1 then (r.(rest := r.rest[1..]), true)
        else (r.(failed := true), true)
      case _ => (r.(failed := true), false)
  }

  /**
   * `file.get(space); getline(file, path)` for a string target holding
   * `prev`. At end of file `get` fails first, so `getline` leaves the target
   * alone.
   */
  function ReadLine(r: Reader, prev: string): (Reader, string)
  {
    if r.failed || r.rest == [] then (r.(failed := true), prev)
    else match r.rest[0]
      case Line(t) => (r.(rest := r.rest[1..]), t)
      case _ => (r.(failed := true), "")
  }

  /** The extraction that the type of field `f` selects. */
  function ReadValue(r: Reader, f: Field, prev: Value): (res: (Reader, Value))
    requires Fits(f, prev)
    ensures Fits(f, res.1)
    ensures |res.0.rest| <= |r.rest|
    ensures r.failed ==> res == (r, prev)
  {
    match f
    case PlayMusic | PlayAudio | ShowFps =>
      var (r', b) := ReadBool(r, prev.b); (r', Flag(b))
    case Difficulty | FrameRate =>
      var (r', n) := ReadNumber(r, prev.n); (r', Count(n))
    case SaveSlot1 | SaveSlot2 | SaveSlot3 =>
      var (r', s) := ReadLine(r, prev.s); (r', Text(s))
  }

  /**
   * Reads, for each field of `fields` in turn, a key word and the field's
   * value, into `s`. Keys are skipped, not compared: the file is read by
   * position.
   */
  function LoadFields(r: Reader, fields: seq<Field>, s: Settings): Settings
    decreases |fields|
  {
    if fields == [] then s
    else
      var (r', v) := ReadValue(ReadWord(r), fields[0], Get(s, fields[0]));
      LoadFields(r', fields[1..], Set(s, fields[0], v))
  }

  /** The key each field is written under, with the comma that follows it. */
  function KeyName(f: Field): string
  {
    match f
    case PlayMusic => "PLAY_MUSIC,"
    case PlayAudio => "PLAY_AUDIO,"
    case Difficulty => "DIFFICULTY,"
    case FrameRate => "FRAME_RATE,"
    case ShowFps => "SHOW_FPS,"
    case SaveSlot1 => "SAVE_SLOT_1,"
    case SaveSlot2 => "SAVE_SLOT_2,"
    case SaveSlot3 => "SAVE_SLOT_3,"
  }

  /** How `file << value` lays a value out. */
  function ValueToken(v: Value): Token
  {
    match v
    case Flag(b) => Number(if b then 1 else 0)
    case Count(n) => Number(n)
    case Text(t) => Line(t)
  }

  /** One `KEY, value` line per field of `fields`, in that order. */
  function Encode(s: Settings, fields: seq<Field>): (t: seq<Token>)
    ensures |t| == 2 * |fields|
    ensures forall i :: 0 <= i < |fields| ==>
      t[2 * i] == Word(KeyName(fields[i])) && t[2 * i + 1] == ValueToken(Get(s, fields[i]))
  {
    if fields == [] then []
    else [Word(KeyName(fields[0])), ValueToken(Get(s, fields[0]))] + Encode(s, fields[1..])
  }

  /** `prev` with each field of `fields`, in turn, overwritten by its value in `s`. */
  function Overlay(prev: Settings, s: Settings, fields: seq<Field>): Settings
    decreases |fields|
  {
    if fields == [] then prev
    else Overlay(Set(prev, fields[0], Get(s, fields[0])), s, fields[1..])
  }

  /** A field is taken from `s` exactly when it is one of `fields`. */
  lemma {:induction false} OverlayAt(prev: Settings, s: Settings, fields: seq<Field>, f: Field)
    ensures Get(Overlay(prev, s, fields), f) == if f in fields then Get(s, f) else Get(prev, f)
    decreases |fields|
  {
    if fields != [] {
      OverlayAt(Set(prev, fields[0], Get(s, fields[0])), s, fields[1..], f);
      assert fields == [fields[0]] + fields[1..];
      if f != fields[0] {
        SetElsewhere(prev, fields[0], Get(s, fields[0]), f);
      }
    }
  }

  /** The five entries of the file, in the order they are written and read. */
  const FileOrder: seq<Field> := [PlayMusic, PlayAudio, Difficulty, FrameRate, ShowFps]

  /** The entries `loadSettingsStruct` reads: the five, then the three save slots. */
  const StructOrder: seq<Field> :=
    [PlayMusic, PlayAudio, Difficulty, FrameRate, ShowFps, SaveSlot1, SaveSlot2, SaveSlot3]

  /** Reading fields changes no field outside them. */
  lemma {:induction false} LoadFieldsFrame(r: Reader, fields: seq<Field>, s: Settings, f: Field)
    requires f !in fields
    ensures Get(LoadFields(r, fields, s), f) == Get(s, f)
    decreases |fields|
  {
    if fields != [] {
      var (r', v) := ReadValue(ReadWord(r), fields[0], Get(s, fields[0]));
      LoadFieldsFrame(r', fields[1..], Set(s, fields[0], v), f);
      SetElsewhere(s, fields[0], v, f);
    }
  }

  /**
   * Reading `a` and then `b` leaves each field outside `b` as reading `a`
   * alone leaves it.
   */
  lemma {:induction false} PrefixRead(r: Reader, a: seq<Field>, b: seq<Field>, s: Settings, f: Field)
    requires f !in b
    ensures Get(LoadFields(r, a + b, s), f) == Get(LoadFields(r, a, s), f)
    decreases |a|
  {
    if a == [] {
      assert a + b == b;
      LoadFieldsFrame(r, b, s, f);
    } else {
      assert (a + b)[0] == a[0] && (a + b)[1..] == a[1..] + b;
      var (r', v) := ReadValue(ReadWord(r), a[0], Get(s, a[0]));
      PrefixRead(r', a[1..], b, Set(s, a[0], v), f);
    }
  }

  /** The file written by `updateSettings`. */
  function SettingsText(s: Settings): (t: seq<Token>)
    ensures |t| == 2 * |FileOrder|
  {
    Encode(s, FileOrder)
  }

  /**
   * That file is five `KEY, value` lines in the order PLAY_MUSIC,
   * PLAY_AUDIO, DIFFICULTY, FRAME_RATE, SHOW_FPS, flags written as 1 or 0.
   */
  lemma SettingsTextLayout(s: Settings)
    ensures SettingsText(s)
            == [Word("PLAY_MUSIC,"), Number(if s.playMusic then 1 else 0),
                Word("PLAY_AUDIO,"), Number(if s.playAudio then 1 else 0),
                Word("DIFFICULTY,"), Number(s.difficulty),
                Word("FRAME_RATE,"), Number(s.frameRate),
                Word("SHOW_FPS,"), Number(if s.showFps then 1 else 0)]
  {
    var t := SettingsText(s);
    assert t[0] == Word(KeyName(FileOrder[0])) && t[1] == ValueToken(Get(s, FileOrder[0]));
    assert t[2] == Word(KeyName(FileOrder[1])) && t[3] == ValueToken(Get(s, FileOrder[1]));
    assert t[4] == Word(KeyName(FileOrder[2])) && t[5] == ValueToken(Get(s, FileOrder[2]));
    assert t[6] == Word(KeyName(FileOrder[3])) && t[7] == ValueToken(Get(s, FileOrder[3]));
    assert t[8] == Word(KeyName(FileOrder[4])) && t[9] == ValueToken(Get(s, FileOrder[4]));
  }

  /** `loadSettings`: the five entries of `file` read into `s`; the save slots are never read. */
  function LoadSettings(file: seq<Token>, s: Settings): (r: Settings)
    ensures r.saveSlot1 == s.saveSlot1 && r.saveSlot2 == s.saveSlot2 && r.saveSlot3 == s.saveSlot3
  {
    LoadFieldsFrame(Reader(file, false), FileOrder, s, SaveSlot1);
    LoadFieldsFrame(Reader(file, false), FileOrder, s, SaveSlot2);
    LoadFieldsFrame(Reader(file, false), FileOrder, s, SaveSlot3);
    LoadFields(Reader(file, false), FileOrder, s)
  }

  /**
   * `loadSettingsStruct`: the five entries and three save-slot lines read
   * into `s`; a missing or empty file changes nothing.
   */
  function LoadSettingsStruct(file: seq<Token>, s: Settings): (r: Settings)
    ensures file == [] ==> r == s
  {
    EmptyFileReadsNothing(StructOrder, s);
    LoadFields(Reader(file, false), StructOrder, s)
  }

  /** Whatever the file holds, `loadSettingsStruct` reads the five entries exactly as `loadSettings` does. */
  lemma StructReadsLikeLoadSettings(file: seq<Token>, s: Settings, f: Field)
    requires f in FileOrder
    ensures Get(LoadSettingsStruct(file, s), f) == Get(LoadSettings(file, s), f)
  {
    assert StructOrder == FileOrder + [SaveSlot1, SaveSlot2, SaveSlot3];
    PrefixRead(Reader(file, false), FileOrder, [SaveSlot1, SaveSlot2, SaveSlot3], s, f);
  }

  /** Reading back the token a value is written as gives the value. */
  lemma ReadValueToken(f: Field, v: Value, prev: Value, rest: seq<Token>)
    requires Fits(f, v) && Fits(f, prev)
    ensures ReadValue(Reader([ValueToken(v)] + rest, false), f, prev) == (Reader(rest, false), v)
  {
    assert ([ValueToken(v)] + rest)[1..] == rest;
  }

  /**
   * Reading fields `a + b` from the encoding of `a` followed by `rest`:
   * `a` comes back from its encoding, then `b` is read from `rest`.
   */
  lemma {:induction false} LoadEncodedThen(v: Settings, prev: Settings, a: seq<Field>, b: seq<Field>, rest: seq<Token>)
    ensures LoadFields(Reader(Encode(v, a) + rest, false), a + b, prev)
            == LoadFields(Reader(rest, false), b, Overlay(prev, v, a))
    decreases |a|
  {
    if a == [] {
      assert Encode(v, a) + rest == rest && a + b == b;
    } else {
      var f0, tail := a[0], a[1..];
      var after := Encode(v, tail) + rest;
      assert Encode(v, a) + rest == [Word(KeyName(f0))] + ([ValueToken(Get(v, f0))] + after);
      assert (a + b)[0] == f0 && (a + b)[1..] == tail + b;
      assert ReadWord(Reader(Encode(v, a) + rest, false)) == Reader([ValueToken(Get(v, f0))] + after, false);
      ReadValueToken(f0, Get(v, f0), Get(prev, f0), after);
      LoadEncodedThen(v, Set(prev, f0, Get(v, f0)), tail, b, rest);
    }
  }

  /**
   * Reading fields back from their own encoding overwrites exactly those
   * fields with the encoded values.
   */
  lemma LoadEncoded(s: Settings, prev: Settings, fields: seq<Field>)
    ensures LoadFields(Reader(Encode(s, fields), false), fields, prev) == Overlay(prev, s, fields)
  {
    LoadEncodedThen(s, prev, fields, [], []);
    assert Encode(s, fields) + [] == Encode(s, fields) && fields + [] == fields;
  }

  /** Once the stream has failed, no later extraction changes anything. */
  lemma {:induction false} LoadFromFailed(r: Reader, fields: seq<Field>, s: Settings)
    requires r.failed
    ensures LoadFields(r, fields, s) == s
    decreases |fields|
  {
    if fields != [] {
      var f0 := fields[0];
      assert Set(s, f0, Get(s, f0)) == s by {
        forall g ensures Get(Set(s, f0, Get(s, f0)), g) == Get(s, g) {
          if g != f0 {
            SetElsewhere(s, f0, Get(s, f0), g);
          }
        }
        Extensionality(Set(s, f0, Get(s, f0)), s);
      }
      LoadFromFailed(ReadWord(r), fields[1..], s);
    }
  }

  /** Overwriting the five entries of `prev` with those of `s` keeps the save slots of `prev`. */
  lemma OverlayFileOrder(prev: Settings, s: Settings)
    ensures Overlay(prev, s, FileOrder)
            == s.(saveSlot1 := prev.saveSlot1, saveSlot2 := prev.saveSlot2, saveSlot3 := prev.saveSlot3)
  {
    var o := Overlay(prev, s, FileOrder);
    OverlayAt(prev, s, FileOrder, PlayMusic);
    OverlayAt(prev, s, FileOrder, PlayAudio);
    OverlayAt(prev, s, FileOrder, Difficulty);
    OverlayAt(prev, s, FileOrder, FrameRate);
    OverlayAt(prev, s, FileOrder, ShowFps);
    OverlayAt(prev, s, FileOrder, SaveSlot1);
    OverlayAt(prev, s, FileOrder, SaveSlot2);
    OverlayAt(prev, s, FileOrder, SaveSlot3);
    assert o.playMusic == s.playMusic && o.playAudio == s.playAudio && o.difficulty == s.difficulty;
    assert o.frameRate == s.frameRate && o.showFps == s.showFps;
    assert o.saveSlot1 == prev.saveSlot1 && o.saveSlot2 == prev.saveSlot2 && o.saveSlot3 == prev.saveSlot3;
  }

  /**
   * Settings round-trip: `loadSettings` reads back from the file
   * `updateSettings` writes the five values written, and keeps the save slots.
   */
  lemma RoundTrip(s: Settings, prev: Settings)
    ensures LoadSettings(SettingsText(s), prev)
            == s.(saveSlot1 := prev.saveSlot1, saveSlot2 := prev.saveSlot2, saveSlot3 := prev.saveSlot3)
  {
    LoadEncoded(s, prev, FileOrder);
    OverlayFileOrder(prev, s);
  }

  /** Overwriting every field of `prev` with its value in `s` gives `s`. */
  lemma OverlayAll(prev: Settings, s: Settings, fields: seq<Field>)
    requires forall f: Field :: f in fields
    ensures Overlay(prev, s, fields) == s
  {
    forall f ensures Get(Overlay(prev, s, fields), f) == Get(s, f) {
      OverlayAt(prev, s, fields, f);
    }
    Extensionality(Overlay(prev, s, fields), s);
  }

  /** A file laid out entry by entry in `loadSettingsStruct`'s order reads back whole. */
  lemma StructRoundTrip(s: Settings, prev: Settings)
    ensures LoadSettingsStruct(Encode(s, StructOrder), prev) == s
  {
    LoadEncoded(s, prev, StructOrder);
    assert forall f: Field :: f in StructOrder by {
      forall f: Field ensures f in StructOrder {
        match f
        case PlayMusic => assert StructOrder[0] == f;
        case PlayAudio => assert StructOrder[1] == f;
        case Difficulty => assert StructOrder[2] == f;
        case FrameRate => assert StructOrder[3] == f;
        case ShowFps => assert StructOrder[4] == f;
        case SaveSlot1 => assert StructOrder[5] == f;
        case SaveSlot2 => assert StructOrder[6] == f;
        case SaveSlot3 => assert StructOrder[7] == f;
      }
    }
    OverlayAll(prev, s, StructOrder);
  }

  /** Reading any fields from an empty stream changes nothing. */
  lemma EmptyFileReadsNothing(fields: seq<Field>, s: Settings)
    ensures LoadFields(Reader([], false), fields, s) == s
  {
    if fields != [] {
      var f0 := fields[0];
      assert Set(s, f0, Get(s, f0)) == s by {
        forall g ensures Get(Set(s, f0, Get(s, f0)), g) == Get(s, g) {
          if g != f0 {
            SetElsewhere(s, f0, Get(s, f0), g);
          }
        }
        Extensionality(Set(s, f0, Get(s, f0)), s);
      }
      LoadFromFailed(ReadWord(Reader([], false)), fields[1..], s);
    }
  }

  /** A missing or empty settings file leaves every setting at its prior value. */
  lemma MissingFileKeepsSettings(s: Settings)
    ensures LoadSettings([], s) == s
  {
    EmptyFileReadsNothing(FileOrder, s);
  }

  /**
   * A settings file whose first three entries are well formed and whose
   * frame rate is not a number (`word`), as a hand edit can leave it.
   */
  function UnreadableFrameRate(v: Settings, key: string, word: string, rest: seq<Token>): seq<Token>
  {
    Encode(v, FileOrder[..3]) + [Word(key), Word(word)] + rest
  }

  /** A frame-rate token that is not a number stores 0 and fails the stream. */
  lemma FrameRateNotNumber(key: string, word: string, rest: seq<Token>, s: Settings)
    ensures var r := LoadFields(Reader([Word(key), Word(word)] + rest, false), [FrameRate, ShowFps], s);
      r.frameRate == 0 && r.showFps == s.showFps
  {
    var tail := [Word(key), Word(word)] + rest;
    var r := ReadWord(Reader(tail, false));
    assert r == Reader([Word(word)] + rest, false);
    var s4 := Set(s, FrameRate, Count(0));
    assert LoadFields(Reader(tail, false), [FrameRate, ShowFps], s) == LoadFields(r.(failed := true), [ShowFps], s4);
    LoadFromFailed(r.(failed := true), [ShowFps], s4);
    SetElsewhere(s, FrameRate, Count(0), ShowFps);
  }

  /**
   * Reading such a file stores 0 in the frame rate and fails the stream, so
   * the readout flag, read after it, keeps its prior value.
   */
  lemma UnreadableFrameRateReadsZero(v: Settings, key: string, word: string, rest: seq<Token>, s: Settings)
    ensures LoadSettings(UnreadableFrameRate(v, key, word, rest), s).frameRate == 0
    ensures LoadSettings(UnreadableFrameRate(v, key, word, rest), s).showFps == s.showFps
  {
    var a, b := FileOrder[..3], [FrameRate, ShowFps];
    var tail := [Word(key), Word(word)] + rest;
    assert UnreadableFrameRate(v, key, word, rest) == Encode(v, a) + tail;
    assert FileOrder == a + b;
    LoadEncodedThen(v, s, a, b, tail);
    OverlayAt(s, v, a, ShowFps);
    FrameRateNotNumber(key, word, rest, Overlay(s, v, a));
  }

  /** `loadSettingsStruct` reads the same file the same way. */
  lemma StructUnreadableFrameRateReadsZero(v: Settings, key: string, word: string, rest: seq<Token>, s: Settings)
    ensures LoadSettingsStruct(UnreadableFrameRate(v, key, word, rest), s).frameRate == 0
    ensures LoadSettingsStruct(UnreadableFrameRate(v, key, word, rest), s).showFps == s.showFps
  {
    var file := UnreadableFrameRate(v, key, word, rest);
    UnreadableFrameRateReadsZero(v, key, word, rest, s);
    StructReadsLikeLoadSettings(file, s, FrameRate);
    StructReadsLikeLoadSettings(file, s, ShowFps);
  }
}
