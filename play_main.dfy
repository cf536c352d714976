/**
 * play.c, the stand-alone single-track player: `main` keeps the player's
 * state in locals and runs the drop, key and time blocks once per frame
 * until the window closes, then unloads the stream.
 */
module PlayMain {
  import opened Audio
  import Formats
  import SongName
  import opened SingleTrack

  /**
   * `main` over the frames the window shows before it closes. The locals
   * are returned; `released` records the streams handed to
   * `UnloadMusicStream`. The uninitialised `Music music;` is the zero stream.
   */
  method Run(delim: char, inputs: seq<FrameInput>)
    returns (pause: bool, musicLoaded: bool, music: Music, timePlayed: real, timeCheck: Ratio,
             nameText: string, ghost released: seq<Music>)
    requires forall k :: 0 <= k < |inputs| ==> inputs[k].Valid()
    ensures var r := Shutdown(RunFrames(delim, Initial, inputs));
      && pause == r.pause && musicLoaded == r.musicLoaded && music == r.music
      && timePlayed == r.timePlayed && timeCheck == r.timeCheck && nameText == r.nameText
    ensures released == Shutdown(RunFrames(delim, Initial, inputs)).released
  {
    nameText := SongName.NamePrefix;
    pause := false;
    musicLoaded := false;
    timeCheck := Finite(0.0);
    timePlayed := 0.0;
    music := NoMusic;
    released := [];
    InitialInv();

    var i := 0;
    while i < |inputs|
      invariant 0 <= i <= |inputs|
      invariant Player(pause, musicLoaded, music, timePlayed, timeCheck, nameText, released)
             == RunFrames(delim, Initial, inputs[..i])
      invariant Inv(RunFrames(delim, Initial, inputs[..i]))
    {
      ghost var p0 := Player(pause, musicLoaded, music, timePlayed, timeCheck, nameText, released);
      assert inputs[..i + 1][..i] == inputs[..i];
      var input := inputs[i];
      pause, musicLoaded, music, timePlayed, timeCheck, nameText, released :=
        Step(delim, input, pause, musicLoaded, music, timePlayed, timeCheck, nameText, released);
      FrameInv(delim, p0, input);
      i := i + 1;
    }
    assert inputs[..i] == inputs;
    // `UnloadMusicStream(music)`, whatever the stream's state
    released := released + [UnloadStream(music)];
    music := UnloadStream(music);
  }

  /** One pass of the window loop's body: the drop, key and time blocks. */
  method Step(delim: char, input: FrameInput, pause0: bool, musicLoaded0: bool, music0: Music,
              timePlayed0: real, timeCheck0: Ratio, nameText0: string, ghost released0: seq<Music>)
    returns (pause: bool, musicLoaded: bool, music: Music, timePlayed: real, timeCheck: Ratio,
             nameText: string, ghost released: seq<Music>)
    requires input.Valid()
    requires Inv(Player(pause0, musicLoaded0, music0, timePlayed0, timeCheck0, nameText0, released0))
    ensures var r := Frame(delim, Player(pause0, musicLoaded0, music0, timePlayed0, timeCheck0, nameText0, released0), input);
      && pause == r.pause && musicLoaded == r.musicLoaded && music == r.music
      && timePlayed == r.timePlayed && timeCheck == r.timeCheck && nameText == r.nameText
    ensures released == Frame(delim, Player(pause0, musicLoaded0, music0, timePlayed0, timeCheck0, nameText0, released0), input).released
  {
    ghost var p0 := Player(pause0, musicLoaded0, music0, timePlayed0, timeCheck0, nameText0, released0);
    pause, musicLoaded, music, timePlayed, timeCheck, nameText, released :=
      pause0, musicLoaded0, music0, timePlayed0, timeCheck0, nameText0, released0;

    // the dropped-files block
    if input.dropped != [] {
      var path := input.dropped[0].path;
      var isMusic := Formats.IsMusic(path, Formats.SingleTrackFormats);
      if isMusic {
        if musicLoaded {
          music := StopStream(music);
          music := UnloadStream(music);
          released := released + [music];
        }
        music := SetStreamVolume(input.dropped[0].music, DefaultMusicVolume);
        if music.frameCount != 0 {
          musicLoaded := true;
          ghost var p1 := Player(pause, musicLoaded, music, timePlayed, timeCheck, nameText, released);
          Formats.SupportedPathLength(path, Formats.SingleTrackFormats);
          var songName := SongName.ReadSongName(path, SongNameCap, SongNameCap, delim);
          nameText := SongName.NamePrefix + songName;
          assert Player(pause, musicLoaded, music, timePlayed, timeCheck, nameText, released)
              == p1.(nameText := NameText(path, delim));
          music := PlayStream(music);
        }
      }
    }
    ghost var p1 := Player(pause, musicLoaded, music, timePlayed, timeCheck, nameText, released);
    assert p1 == Drop(delim, p0, input.dropped);
    DropInv(delim, p0, input.dropped);

    // the key block
    if input.key == Space {
      pause := !pause;
      if pause {
        music := PauseStream(music);
      } else {
        music := ResumeStream(music);
      }
    } else if input.key == Left {
      if music.playing {
        var futurePos := Max(music.timePlayed - MusicStep, 0.0);
        music := SeekStream(music, futurePos);
      }
    } else if input.key == Right {
      if music.playing {
        var futurePos := Min(music.timePlayed + MusicStep, music.length);
        music := SeekStream(music, futurePos);
      }
    }
    assert Player(pause, musicLoaded, music, timePlayed, timeCheck, nameText, released) == PressKey(p1, input.key);

    // the time block
    if musicLoaded {
      music := UpdateStream(music, input.played);
      timePlayed := input.played;
      timeCheck := TimeCheck(timePlayed, music.length);
    }
    assert Player(pause, musicLoaded, music, timePlayed, timeCheck, nameText, released) == Frame(delim, p0, input);
  }
}
