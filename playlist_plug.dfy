/**
 * The `Plug` record of src/plug.c as an object whose methods update its
 * fields in place, one method per function of the source. Each method is
 * proved to move the object's state exactly as the matching step of the
 * `Playlist` state machine does, and to keep its invariant.
 */
module PlaylistPlug {
  import opened Wrappers
  import opened Audio
  import opened Playlist
  import Formats
  import SongName

  class Plug {
    /** The constants of the build. */
    const config: Config

    var appState: AppState
    var list: seq<Music>
    var curr: nat
    var length: real
    var timePlayed: real
    var timeCheck: real
    var musicLoaded: bool
    var musicPaused: bool
    var musicVolume: real
    var showPopupMsg: bool
    var popupStartTime: real
    var songName: string
    var track: SeekTrack

    /** The fields as one value of the state machine. */
    function State(): PlugState
      reads this
    {
      PlugState(appState, list, curr, length, timePlayed, timeCheck, musicLoaded, musicPaused,
                musicVolume, showPopupMsg, popupStartTime, songName, track)
    }

    ghost predicate Valid()
      reads this
    {
      config.Valid() && Inv(State())
    }

    /** The zero-initialised global `Plug` after `plug_init`. */
    constructor (config: Config, width: nat, height: nat)
      requires config.Valid() && width > 0
      ensures this.config == config && Valid()
      ensures State() == Initial(width, height)
    {
      this.config := config;
      appState := WaitingForFile;
      list, curr, length, timePlayed, timeCheck := [], 0, 0.0, 0.0, 0.0;
      musicLoaded, musicPaused, musicVolume := false, false, 0.0;
      showPopupMsg, popupStartTime := false, 0.0;
      songName := SongName.NamePrefix;
      track := NoTrack;
      new;
      InitTrack(width, height, true);
      InitialInv(width, height);
    }

    /** `plug_init_track`. */
    method InitTrack(width: nat, height: nat, cpydef: bool)
      modifies this
      ensures State() == old(State()).(track := Playlist.InitTrack(old(track), width, height, cpydef))
    {
      var marginBottom := (height / 13) as real;
      var indent := (width / 20) as real;
      var start := Vector2(indent, height as real - marginBottom);
      var end := Vector2(width as real - indent, height as real - marginBottom);
      if cpydef {
        track := SeekTrack(marginBottom, TrackThickness, start, end, start);
      } else {
        track := SeekTrack(marginBottom, TrackThickness, start, end, track.cursor.(y := start.y));
      }
    }

    /** `plug_reinit`, as far as the seek bar goes. */
    method Reinit(width: nat, height: nat)
      requires Valid() && width > 0
      modifies this
      ensures Valid() && State() == Playlist.Reinit(old(State()), width, height)
    {
      InitTrack(width, height, false);
    }

    /** The block of `plug_load_music` that stops and unloads a playing
        current entry and moves `curr` on. */
    method StopCurrentStream()
      modifies this
      ensures State() == StopCurrent(old(State()))
    {
      if curr < |list| && list[curr].playing {
        var m := curr;
        curr := curr + 1;
        list := list[m := UnloadStream(StopStream(list[m]))];
      }
    }

    /** `plug_load_music`: the stream to append, or None when it was refused. */
    method LoadMusic(d: Dropped) returns (loaded: Option<Music>)
      requires config.Valid() && d.Valid()
      modifies this
      ensures (State(), loaded) == Playlist.LoadMusic(config, old(State()), d)
    {
      ghost var s0 := State();
      var isMusic := Formats.IsMusic(d.path, Formats.PlaylistFormats);
      if !isMusic {
        return None;
      }
      var music := SetStreamVolume(d.music, DefaultMusicVolume);
      if music.frameCount == 0 {
        return None;
      }
      StopCurrentStream();
      appState := MainScreen;
      length := music.length;
      musicLoaded := true;
      musicPaused := false;
      ghost var s1 := State();
      assert s1 == StopCurrent(s0).(appState := MainScreen, length := d.music.length, musicLoaded := true, musicPaused := false);
      Formats.SupportedPathLength(d.path, Formats.PlaylistFormats);
      var text := SongName.ReadSongName(d.path, 256, config.textCap, config.delim);
      songName := Snprintf(SongName.NamePrefix + text, config.textCap);
      assert State() == s1.(songName := songName);
      loaded := Some(PlayStream(music));
      assert Playlist.LoadMusic(config, s0, d) == (s1.(songName := songName), loaded);
    }

    /** One iteration of `plug_handle_dropped_files`: `VM_PUSH` the stream when it loaded. */
    method HandleDroppedFile(d: Dropped)
      requires Valid() && d.Valid()
      modifies this
      ensures Valid() && State() == DropFile(config, old(State()), d)
    {
      ghost var s0 := State();
      var loaded := LoadMusic(d);
      if loaded.Some? {
        list := list + [loaded.value];
      }
      assert State() == DropFile(config, s0, d);
      DropFileInv(config, s0, d);
    }

    /** `plug_handle_dropped_files`: every stream that loads is appended. */
    method HandleDroppedFiles(files: seq<Dropped>)
      requires Valid() && forall k :: 0 <= k < |files| ==> files[k].Valid()
      modifies this
      ensures Valid() && State() == DropFiles(config, old(State()), files)
    {
      for i := 0 to |files|
        invariant Valid()
        invariant State() == DropFiles(config, old(State()), files[..i])
      {
        assert files[..i + 1][..i] == files[..i];
        HandleDroppedFile(files[i]);
      }
      assert files[..|files|] == files;
    }

    /** `plug_handle_keys`: SPACE, LEFT, RIGHT, UP, DOWN, N and P, the
        first one pressed. */
    method HandleKeys(key: Key, now: real)
      requires Valid()
      modifies this
      ensures Valid() && State() == HandleKey(config, old(State()), key, now)
    {
      ghost var s0 := State();
      match key {
        case NoKey =>
        case Space => TogglePause(now);
        case Left => Seek(key, now);
        case Right => Seek(key, now);
        case Up => ChangeVolume(key, now);
        case Down => ChangeVolume(key, now);
        case KeyN => PlayNext(now);
        case KeyP => PlayPrevious(now);
      }
      HandleKeyInv(config, s0, key, now);
    }

    /** The SPACE block: flip the pause flag and pause or resume the current entry. */
    method TogglePause(now: real)
      modifies this
      ensures State() == HandleKey(config, old(State()), Space, now)
    {
      musicPaused := !musicPaused;
      if curr < |list| {
        if musicPaused {
          list := list[curr := PauseStream(list[curr])];
        } else {
          list := list[curr := ResumeStream(list[curr])];
        }
      }
    }

    /** The LEFT and RIGHT blocks: seek a playing current entry by the
        seek step within [0, length] and show the popup. */
    method Seek(key: Key, now: real)
      requires key == Left || key == Right
      modifies this
      ensures State() == HandleKey(config, old(State()), key, now)
    {
      if curr < |list| && list[curr].playing {
        var futurePos;
        if key == Left {
          futurePos := Max(list[curr].timePlayed - config.seekStep, 0.0);
        } else {
          futurePos := Min(list[curr].timePlayed + config.seekStep, list[curr].length);
        }
        list := list[curr := SeekStream(list[curr], futurePos)];
        showPopupMsg, popupStartTime := true, now;
      }
    }

    /** The UP and DOWN blocks: move the volume of a playing current entry
        by the volume step within [0, 1] and show the popup. */
    method ChangeVolume(key: Key, now: real)
      requires key == Up || key == Down
      modifies this
      ensures State() == HandleKey(config, old(State()), key, now)
    {
      if curr < |list| && list[curr].playing {
        showPopupMsg, popupStartTime := true, now;
        if key == Up {
          musicVolume := Min(musicVolume + config.volumeStep, 1.0);
        } else {
          musicVolume := Max(musicVolume - config.volumeStep, 0.0);
        }
        list := list[curr := SetStreamVolume(list[curr], musicVolume)];
      }
    }

    /** The N block: with an entry after `curr`, stop and unload that entry
        if it plays, move `curr` on and play it. */
    method PlayNext(now: real)
      modifies this
      ensures State() == HandleKey(config, old(State()), KeyN, now)
    {
      var next := NthMusic(list, curr + 1);
      if next.Some? {
        var n := next.value;
        if list[n].playing {
          list := list[n := UnloadStream(StopStream(list[n]))];
        }
        curr := curr + 1;
        list := list[n := PlayStream(list[n])];
      }
    }

    /** The P block: with an entry before `curr`, stop and unload the current
        entry if it plays and play the one before; `curr` stays. */
    method PlayPrevious(now: real)
      modifies this
      ensures State() == HandleKey(config, old(State()), KeyP, now)
    {
      var prev := NthMusic(list, curr - 1);
      var current := CurrMusic(State());
      if prev.Some? && current.Some? {
        var c := current.value;
        if list[c].playing {
          list := list[c := UnloadStream(StopStream(list[c]))];
        }
        list := list[prev.value := PlayStream(list[prev.value])];
      }
    }

    /** `plug_handle_buttons`. */
    method HandleButtons(click: Option<Vector2>)
      requires Valid()
      modifies this
      ensures Valid() && State() == HandleClick(old(State()), click)
    {
      HandleClickInv(State(), click);
      if click.Some? {
        var mouse := click.value;
        if IsMouseOnTrack(mouse, track) && curr < |list| && list[curr].playing {
          var t := track;
          track := t.(cursor := t.cursor.(x := mouse.x));
          var position := ClickPosition(mouse, t, length);
          list := list[curr := SeekStream(list[curr], position)];
        }
      }
    }

    /** The time update of `plug_frame`. */
    method UpdatePlayback(played: real)
      requires Valid() && played >= 0.0
      modifies this
      ensures Valid() && State() == Playlist.UpdatePlayback(old(State()), played)
    {
      UpdatePlaybackInv(State(), played);
      if musicLoaded && appState == MainScreen && curr < |list| {
        list := list[curr := UpdateStream(list[curr], played)];
        timePlayed := played;
        track := track.(cursor := track.cursor.(x := CursorPosition(timePlayed, length, track)));
        timeCheck := timePlayed / length;
        if timeCheck > 1.0 {
          timeCheck := 1.0;
        }
      }
    }

    /** The popup check of `plug_draw_main_screen`. */
    method DrawMainScreen(now: real)
      requires Valid()
      modifies this
      ensures Valid() && State() == ExpirePopup(config, old(State()), now)
    {
      if showPopupMsg {
        if !(now - popupStartTime < config.popupDuration) {
          showPopupMsg := false;
        }
      }
    }

    /** `plug_frame`. */
    method Frame(input: FrameInput)
      requires Valid() && input.Valid()
      modifies this
      ensures Valid() && State() == Playlist.Frame(config, old(State()), input)
    {
      if input.resized {
        Reinit(input.width, input.height);
      }
      HandleDroppedFiles(input.dropped);
      if appState == MainScreen {
        HandleKeys(input.key, input.now);
        HandleButtons(input.click);
      }
      UpdatePlayback(input.played);
      if appState == MainScreen {
        DrawMainScreen(input.now);
      }
    }

    /** `plug_free`. */
    method Free()
      requires Valid()
      modifies this
      ensures State() == Playlist.Free(old(State()))
    {
      if curr < |list| && list[curr].playing {
        list := list[curr := UnloadStream(list[curr])];
      }
      musicLoaded := false;
    }
  }
}
