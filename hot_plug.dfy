/**
 * plug.c, the hot-reloadable plug of the single-track player: main.c keeps
 * one `Plug` record in a global, zero-initialised, and hands it to
 * `plug_init`, `plug_frame` and `plug_free`, which update its fields in
 * place. Each method below is proved to take the record from `State()` to
 * the single-track step that describes it.
 */
module HotPlug {
  import opened Audio
  import Formats
  import SongName
  import opened SingleTrack

  class Plug {
    /** `DELIM` of the platform the plug is built for. */
    const delim: char
    var pause: bool
    var musicLoaded: bool
    var music: Music
    var timePlayed: real
    var timeCheck: Ratio
    var nameText: string
    /** Every stream handed to `UnloadMusicStream`, in order. */
    ghost var released: seq<Music>

    /** The record as a single-track player value. */
    ghost function State(): Player
      reads this
    {
      Player(pause, musicLoaded, music, timePlayed, timeCheck, nameText, released)
    }

    ghost predicate Valid()
      reads this
    {
      Inv(State())
    }

    /** `Plug plug = {0};` in main.c, then `plug_init(&plug)`. */
    constructor(delim: char)
      ensures this.delim == delim && State() == Initial && Valid()
    {
      this.delim := delim;
      pause := false;
      musicLoaded := false;
      music := NoMusic;
      timePlayed := 0.0;
      timeCheck := Finite(0.0);
      nameText := "";
      released := [];
      new;
      Init();
    }

    /** `plug_init`: the time, the ratio, the name text, both flags and the
        stream are reset; a stream loaded before is not released. */
    method Init()
      modifies this
      ensures State() == Initial.(released := old(released)) && Valid()
    {
      timePlayed := 0.0;
      timeCheck := Finite(0.0);
      nameText := SongName.NamePrefix;
      pause := false;
      musicLoaded := false;
      music := NoMusic;
    }

    /** The dropped-files block of `plug_frame`. */
    method HandleDrop(files: seq<Dropped>)
      requires Valid() && forall k :: 0 <= k < |files| ==> files[k].Valid()
      modifies this
      ensures State() == Drop(delim, old(State()), files) && Valid()
    {
      ghost var p0 := State();
      if files == [] {
        return;
      }
      var d := files[0];
      var isMusic := Formats.IsMusic(d.path, Formats.SingleTrackFormats);
      if isMusic {
        if musicLoaded {
          music := StopStream(music);
          music := UnloadStream(music);
          released := released + [music];
        }
        music := SetStreamVolume(d.music, DefaultMusicVolume);
        if music.frameCount != 0 {
          musicLoaded := true;
          ghost var p1 := State();
          Formats.SupportedPathLength(d.path, Formats.SingleTrackFormats);
          var songName := SongName.ReadSongName(d.path, SongNameCap, SongNameCap, delim);
          nameText := SongName.NamePrefix + songName;
          assert State() == p1.(nameText := NameText(d.path, delim));
          music := PlayStream(music);
        }
      }
      assert State() == Drop(delim, p0, files);
      DropInv(delim, p0, files);
    }

    /** The key block of `plug_frame`: SPACE, else LEFT or RIGHT on a
        playing stream. */
    method HandleKey(key: Key)
      requires Valid()
      modifies this
      ensures State() == PressKey(old(State()), key) && Valid()
    {
      ghost var p0 := State();
      if key == Space {
        pause := !pause;
        if pause {
          music := PauseStream(music);
        } else {
          music := ResumeStream(music);
        }
      } else if key == Left && music.playing {
        var futurePos := Max(music.timePlayed - MusicStep, 0.0);
        music := SeekStream(music, futurePos);
      } else if key == Right && music.playing {
        var futurePos := Min(music.timePlayed + MusicStep, music.length);
        music := SeekStream(music, futurePos);
      }
      KeyInv(p0, key);
    }

    /** The time block of `plug_frame`. */
    method UpdateTime(played: real)
      requires Valid() && played >= 0.0
      modifies this
      ensures State() == Update(old(State()), played) && Valid()
    {
      if musicLoaded {
        music := UpdateStream(music, played);
        timePlayed := played;
        timeCheck := TimeCheck(timePlayed, music.length);
      }
    }

    /** `plug_frame`: drop, keys, time; drawing changes nothing here. */
    method Frame(input: FrameInput)
      requires Valid() && input.Valid()
      modifies this
      ensures State() == SingleTrack.Frame(delim, old(State()), input) && Valid()
    {
      HandleDrop(input.dropped);
      HandleKey(input.key);
      UpdateTime(input.played);
    }

    /** `plug_free`: a playing stream is unloaded; the loaded flag is cleared. */
    method Free()
      requires Valid()
      modifies this
      ensures State() == SingleTrack.Free(old(State())) && Valid()
    {
      if music.playing {
        music := UnloadStream(music);
        released := released + [music];
      }
      musicLoaded := false;
    }
  }

  /**
   * main.c's `main`: the global record, `plug_init`, one `plug_frame` per
   * frame until the window closes, then `plug_free`. The reload on R swaps
   * the code, not the record, and `plug_update` touches only the font size.
   */
  method Run(delim: char, inputs: seq<FrameInput>) returns (plug: Plug)
    requires forall k :: 0 <= k < |inputs| ==> inputs[k].Valid()
    ensures plug.State() == SingleTrack.Free(RunFrames(delim, Initial, inputs))
  {
    plug := new Plug(delim);
    var i := 0;
    while i < |inputs|
      invariant 0 <= i <= |inputs|
      invariant plug.Valid() && plug.delim == delim
      invariant plug.State() == RunFrames(delim, Initial, inputs[..i])
    {
      assert inputs[..i + 1][..i] == inputs[..i];
      plug.Frame(inputs[i]);
      i := i + 1;
    }
    assert inputs[..i] == inputs;
    plug.Free();
  }
}
