/**
 * The playlist player of src/plug.c as a state machine on values. The state
 * is the part of `Plug` the player logic reads and writes: the application
 * screen, the playlist `pl` (the growable array of streams, the current
 * index, the last loaded length, the time played and the progress ratio),
 * the loaded/paused flags, the volume, the popup message flag and its start
 * time, the song name text and the seek bar. Every raylib query of a frame
 * (window size, dropped files, pressed key, mouse click, stream time,
 * clock) is an input.
 */
module Playlist {
  import opened Wrappers
  import opened Audio
  import Formats
  import SongName

  /** The thickness `plug_init_track` gives the seek bar. */
  const TrackThickness: real := 5.0

  datatype AppState = WaitingForFile | MainScreen

  /** `Seek_Track`: the bar drawn from `start` to `end` and its cursor's centre. */
  datatype SeekTrack = SeekTrack(marginBottom: real, thickness: real, start: Vector2, end: Vector2, cursor: Vector2)

  /**
   * The constants src/plug.c takes from a header that is not part of this
   * model: `DEFAULT_MUSIC_SEEK_STEP`, `DEFAULT_MUSIC_VOLUME_STEP`,
   * `SONG_VOLUME_MSG_DURATION`, `TEXT_CAP` and `DELIM`.
   */
  datatype Config = Config(seekStep: real, volumeStep: real, popupDuration: real, textCap: nat, delim: char)
  {
    /** `TEXT_CAP` is at most the 256-byte buffer `get_song_name` writes into. */
    predicate Valid()
    {
      seekStep >= 0.0 && volumeStep >= 0.0 && 1 <= textCap <= 256 && (delim == '/' || delim == '\\')
    }
  }

  datatype PlugState = PlugState(
    appState: AppState,
    list: seq<Music>,
    curr: nat,
    length: real,
    timePlayed: real,
    timeCheck: real,
    musicLoaded: bool,
    musicPaused: bool,
    musicVolume: real,
    showPopupMsg: bool,
    popupStartTime: real,
    songName: string,
    track: SeekTrack)

  /** What raylib reports during one call of `plug_frame`. */
  datatype FrameInput = FrameInput(
    resized: bool, width: nat, height: nat,
    dropped: seq<Dropped>, key: Key, click: Option<Vector2>,
    played: real, now: real)
  {
    /** The window has a width, the stream time is not negative and every drop is well formed. */
    predicate Valid()
    {
      width > 0 && played >= 0.0 && forall k :: 0 <= k < |dropped| ==> dropped[k].Valid()
    }
  }

  /** What `plug_frame` keeps true from one frame to the next. */
  predicate Inv(s: PlugState)
  {
    (forall k :: 0 <= k < |s.list| ==> s.list[k].frameCount > 0 && s.list[k].WellFormed())
    && (s.appState == MainScreen <==> |s.list| > 0)
    && (s.musicLoaded <==> |s.list| > 0)
    && (if |s.list| == 0 then s.curr == 0 else s.curr < |s.list|)
    && (s.appState == MainScreen ==> s.length > 0.0)
    && 0.0 <= s.musicVolume <= 1.0
    && 0.0 <= s.timeCheck <= 1.0
    && s.timePlayed >= 0.0
    && s.track.start.x < s.track.end.x
  }

  // ---------------------------------------------------------------------------
  // Lookups and the seek bar

  /** `plug_get_curr_music`: the current entry's index, when `curr` is one. */
  function CurrMusic(s: PlugState): (r: Option<nat>)
    ensures r.Some? <==> s.curr < |s.list|
    ensures r.Some? ==> r.value == s.curr
  {
    if s.curr < |s.list| then Some(s.curr) else None
  }

  /** `plug_get_nth_music`: entry `n` when `0 < n < count`; never entry 0. */
  function NthMusic(list: seq<Music>, n: int): (r: Option<nat>)
    ensures r.Some? <==> 0 < n < |list|
    ensures r.Some? ==> r.value == n && r.value != 0
  {
    if n > 0 && n < |list| then Some(n) else None
  }

  /** The current entry exists and `IsMusicStreamPlaying` says it is playing. */
  predicate CurrPlaying(s: PlugState)
  {
    s.curr < |s.list| && s.list[s.curr].playing
  }

  /** `is_mouse_on_track`: inside the bar horizontally, and within three
      thicknesses of it vertically (the line's own thickness plus a padding of two). */
  function IsMouseOnTrack(p: Vector2, t: SeekTrack): (r: bool)
    ensures r <==> t.start.x <= p.x <= t.end.x
                   && t.start.y - 3.0 * t.thickness <= p.y <= t.end.y + 3.0 * t.thickness
  {
    var padding := t.thickness * 2.0;
    p.x >= t.start.x && p.x <= t.end.x
    && p.y >= t.start.y - t.thickness - padding && p.y <= t.end.y + t.thickness + padding
  }

  /** `plug_init_track`: a horizontal bar `height / 13` above the bottom,
      indented by `width / 20` on both sides (integer divisions). */
  function InitTrack(t: SeekTrack, width: nat, height: nat, cpydef: bool): (r: SeekTrack)
    ensures width > 0 ==> r.start.x < r.end.x
    ensures r.start.x + r.end.x == width as real
    ensures r.start.y == r.end.y == r.cursor.y && 0.0 <= r.start.y <= height as real
    ensures r.thickness == TrackThickness
    ensures if cpydef then r.cursor == r.start else r.cursor.x == t.cursor.x
  {
    var marginBottom := (height / 13) as real;
    var indent := (width / 20) as real;
    var start := Vector2(indent, height as real - marginBottom);
    var end := Vector2(width as real - indent, height as real - marginBottom);
    var cursor := if cpydef then start else t.cursor.(y := start.y);
    SeekTrack(marginBottom, TrackThickness, start, end, cursor)
  }

  /** The seek bar before `plug_init` lays it out: zero-initialised. */
  const NoTrack := SeekTrack(0.0, 0.0, Vector2(0.0, 0.0), Vector2(0.0, 0.0), Vector2(0.0, 0.0))

  /** `plug_init` on a zero-initialised `Plug`: the waiting screen and an empty playlist. */
  function Initial(width: nat, height: nat): PlugState
  {
    PlugState(WaitingForFile, [], 0, 0.0, 0.0, 0.0, false, false, 0.0, false, 0.0, SongName.NamePrefix,
              InitTrack(NoTrack, width, height, true))
  }

  // ---------------------------------------------------------------------------
  // Loading dropped files

  /** `snprintf(buf, size, "%s", text)`: at most `size - 1` characters of `text`. */
  function Snprintf(text: string, size: nat): (r: string)
    requires size >= 1
    ensures |r| < size && |r| <= |text| && r == text[..|r|]
    ensures |text| < size ==> r == text
  {
    if |text| < size then text else text[..size - 1]
  }

  /** The two tests `plug_load_music` makes before it accepts a stream. */
  predicate Loads(d: Dropped)
  {
    Formats.Supported(d.path, Formats.PlaylistFormats) && d.music.frameCount != 0
  }

  /** The stream `plug_load_music` hands back: playing, at the default volume. */
  function Started(d: Dropped): Music
  {
    PlayStream(SetStreamVolume(d.music, DefaultMusicVolume))
  }

  /** The part of `plug_load_music` that makes room for a new stream: a
      current entry that plays is stopped and unloaded, and `curr` moves on. */
  function StopCurrent(s: PlugState): PlugState
  {
    if CurrPlaying(s) then s.(curr := s.curr + 1, list := s.list[s.curr := UnloadStream(StopStream(s.list[s.curr]))])
    else s
  }

  /**
   * `plug_load_music`: refuses a path that is not music or a stream without
   * frames. Otherwise a current entry that is playing is stopped and
   * unloaded and `curr` moves on by one, the main screen is shown, the
   * length, flags and song name are set, and the new stream plays.
   */
  function LoadMusic(cfg: Config, s: PlugState, d: Dropped): (PlugState, Option<Music>)
    requires cfg.Valid()
  {
    if !Loads(d) then (s, None)
    else
      Formats.SupportedPathLength(d.path, Formats.PlaylistFormats);
      var s1 := StopCurrent(s);
      var name := SongName.SongName(d.path, cfg.delim, cfg.textCap);
      (s1.(appState := MainScreen, length := d.music.length, musicLoaded := true, musicPaused := false,
           songName := Snprintf(SongName.NamePrefix + name, cfg.textCap)),
       Some(Started(d)))
  }

  /** One iteration of `plug_handle_dropped_files`: append the stream only when it loaded. */
  function DropFile(cfg: Config, s: PlugState, d: Dropped): PlugState
    requires cfg.Valid()
  {
    var (s1, loaded) := LoadMusic(cfg, s, d);
    if loaded.Some? then s1.(list := s1.list + [loaded.value]) else s1
  }

  /** `plug_handle_dropped_files` over the dropped paths in order. */
  function DropFiles(cfg: Config, s: PlugState, ds: seq<Dropped>): PlugState
    requires cfg.Valid()
  {
    if ds == [] then s else DropFile(cfg, DropFiles(cfg, s, ds[..|ds| - 1]), ds[|ds| - 1])
  }

  /** The streams `plug_load_music` hands back for the dropped files, in drop order. */
  function LoadedStreams(ds: seq<Dropped>): (r: seq<Music>)
    ensures |r| == LoadCount(ds)
    ensures forall k :: 0 <= k < |r| ==> r[k].volume == DefaultMusicVolume
  {
    if ds == [] then []
    else LoadedStreams(ds[..|ds| - 1]) + (if Loads(ds[|ds| - 1]) then [Started(ds[|ds| - 1])] else [])
  }

  /** An entry that is `m` itself or `m` stopped and unloaded by `StopCurrent`. */
  predicate SameOrSilenced(e: Music, m: Music)
  {
    e == m || e == UnloadStream(StopStream(m))
  }

  /** How many of the dropped files `plug_load_music` accepts. */
  function LoadCount(ds: seq<Dropped>): nat
  {
    if ds == [] then 0 else LoadCount(ds[..|ds| - 1]) + (if Loads(ds[|ds| - 1]) then 1 else 0)
  }

  // ---------------------------------------------------------------------------
  // Keys, clicks and the per-frame update

  /** The popup message is shown from `now` on. */
  function Popup(s: PlugState, now: real): PlugState
  {
    s.(showPopupMsg := true, popupStartTime := now)
  }

  /** `plug_handle_keys`: the first pressed key of SPACE, LEFT, RIGHT, UP, DOWN, N, P. */
  function HandleKey(cfg: Config, s: PlugState, key: Key, now: real): PlugState
  {
    match key
    case NoKey => s
    case Space =>
      var paused := !s.musicPaused;
      if s.curr < |s.list| then
        var m := s.list[s.curr];
        s.(musicPaused := paused, list := s.list[s.curr := if paused then PauseStream(m) else ResumeStream(m)])
      else s.(musicPaused := paused)
    case Left =>
      if CurrPlaying(s) then
        var m := s.list[s.curr];
        Popup(s.(list := s.list[s.curr := SeekStream(m, Max(m.timePlayed - cfg.seekStep, 0.0))]), now)
      else s
    case Right =>
      if CurrPlaying(s) then
        var m := s.list[s.curr];
        Popup(s.(list := s.list[s.curr := SeekStream(m, Min(m.timePlayed + cfg.seekStep, m.length))]), now)
      else s
    case Up =>
      if CurrPlaying(s) then
        var v := Min(s.musicVolume + cfg.volumeStep, 1.0);
        Popup(s.(musicVolume := v, list := s.list[s.curr := SetStreamVolume(s.list[s.curr], v)]), now)
      else s
    case Down =>
      if CurrPlaying(s) then
        var v := Max(s.musicVolume - cfg.volumeStep, 0.0);
        Popup(s.(musicVolume := v, list := s.list[s.curr := SetStreamVolume(s.list[s.curr], v)]), now)
      else s
    case KeyN =>
      (match NthMusic(s.list, s.curr + 1)
       case None => s
       case Some(n) =>
         var m := if s.list[n].playing then UnloadStream(StopStream(s.list[n])) else s.list[n];
         s.(curr := s.curr + 1, list := s.list[n := PlayStream(m)]))
    case KeyP =>
      match (NthMusic(s.list, s.curr - 1), CurrMusic(s))
      case (Some(n), Some(c)) =>
        var list := if s.list[c].playing then s.list[c := UnloadStream(StopStream(s.list[c]))] else s.list;
        s.(list := list[n := PlayStream(list[n])])
      case _ => s
  }

  /** Where a click at `p` seeks to: the same fraction of `length` as of the bar. */
  function ClickPosition(p: Vector2, t: SeekTrack, length: real): (r: real)
    requires t.start.x < t.end.x
    ensures t.start.x <= p.x <= t.end.x && length >= 0.0 ==> 0.0 <= r <= length
  {
    if t.start.x <= p.x <= t.end.x && length >= 0.0 then
      ScaledFraction(p.x - t.start.x, t.end.x - t.start.x, length);
      (p.x - t.start.x) / (t.end.x - t.start.x) * length
    else
      (p.x - t.start.x) / (t.end.x - t.start.x) * length
  }

  /** `plug_handle_buttons`: a left click on the bar, while the current entry
      plays, moves the cursor there and seeks to the same fraction of `length`. */
  function HandleClick(s: PlugState, click: Option<Vector2>): PlugState
    requires s.track.start.x < s.track.end.x
  {
    match click
    case None => s
    case Some(p) =>
      if IsMouseOnTrack(p, s.track) && CurrPlaying(s) then
        var t := s.track;
        s.(track := t.(cursor := t.cursor.(x := p.x)),
           list := s.list[s.curr := SeekStream(s.list[s.curr], ClickPosition(p, t, s.length))])
      else s
  }

  /**
   * The time update of `plug_frame`: with a stream loaded on the main screen
   * and a current entry, record the time played, put the cursor at the same
   * fraction of the bar and cap `time_check` at 1.
   */
  function UpdatePlayback(s: PlugState, played: real): PlugState
    requires played >= 0.0
    requires s.appState == MainScreen ==> s.length > 0.0
  {
    if s.musicLoaded && s.appState == MainScreen && s.curr < |s.list| then
      s.(list := s.list[s.curr := UpdateStream(s.list[s.curr], played)],
         timePlayed := played,
         track := s.track.(cursor := s.track.cursor.(x := CursorPosition(played, s.length, s.track))),
         timeCheck := TimeCheck(played, s.length).value)
    else s
  }

  /** Where the seek bar's cursor is drawn: the fraction `played / length`
      of the way along the bar. */
  function CursorPosition(played: real, length: real, t: SeekTrack): (x: real)
    requires length > 0.0
  {
    played / length * (t.end.x - t.start.x) + t.start.x
  }

  /** The cursor stays on the bar while the time played is within the length. */
  lemma CursorOnBar(played: real, length: real, t: SeekTrack)
    requires 0.0 <= played <= length && length > 0.0 && t.start.x < t.end.x
    ensures t.start.x <= CursorPosition(played, length, t) <= t.end.x
  {
    var w := t.end.x - t.start.x;
    ScaledFraction(played, length, w);
    assert CursorPosition(played, length, t) == played / length * w + t.start.x;
  }

  /** The popup part of `plug_draw_main_screen`: hidden once its time is up. */
  function ExpirePopup(cfg: Config, s: PlugState, now: real): PlugState
  {
    if s.showPopupMsg && !(now - s.popupStartTime < cfg.popupDuration) then s.(showPopupMsg := false) else s
  }

  /** The seek bar after `IsWindowResized()`: `plug_reinit` lays it out again. */
  function Reinit(s: PlugState, width: nat, height: nat): PlugState
  {
    s.(track := InitTrack(s.track, width, height, false))
  }

  /** One call of `plug_frame`. */
  function Frame(cfg: Config, s: PlugState, input: FrameInput): PlugState
    requires cfg.Valid() && Inv(s) && input.Valid()
  {
    var s1 := if input.resized then Reinit(s, input.width, input.height) else s;
    DropFilesInv(cfg, s1, input.dropped);
    var s2 := DropFiles(cfg, s1, input.dropped);
    HandleKeyInv(cfg, s2, input.key, input.now);
    HandleClickInv(HandleKey(cfg, s2, input.key, input.now), input.click);
    var s3 := if s2.appState == MainScreen then HandleClick(HandleKey(cfg, s2, input.key, input.now), input.click) else s2;
    var s4 := UpdatePlayback(s3, input.played);
    if s4.appState == MainScreen then ExpirePopup(cfg, s4, input.now) else s4
  }

  // ---------------------------------------------------------------------------
  // The invariant is kept by every step

  /** `a / b * c` lies between 0 and `c` for `0 <= a <= b`. */
  lemma ScaledFraction(a: real, b: real, c: real)
    requires 0.0 <= a <= b && b > 0.0 && c >= 0.0
    ensures 0.0 <= a / b * c <= c
  {
    assert 0.0 <= a / b <= 1.0;
    assert a / b * c <= 1.0 * c;
  }

  /** `plug_load_music` refuses a path that is not music or a stream
      without frames, and then changes nothing. */
  lemma LoadMusicRejects(cfg: Config, s: PlugState, d: Dropped)
    requires cfg.Valid() && !Loads(d)
    ensures LoadMusic(cfg, s, d) == (s, None)
  {
  }

  /**
   * On a stream it accepts, `plug_load_music` shows the main screen, sets the
   * loaded flag, clears the paused flag, takes the new stream's length,
   * moves `curr` on by one exactly when the current entry is playing (and
   * then stops and unloads that entry), names the song after the path, and
   * hands back the new stream playing at the default volume.
   */
  lemma LoadMusicAccepts(cfg: Config, s: PlugState, d: Dropped)
    requires cfg.Valid() && Loads(d) && d.Valid()
    ensures |d.path| > 0
    ensures LoadMusic(cfg, s, d) ==
      (StopCurrent(s).(appState := MainScreen, length := d.music.length, musicLoaded := true, musicPaused := false,
         songName := Snprintf(SongName.NamePrefix + SongName.SongName(d.path, cfg.delim, cfg.textCap), cfg.textCap)),
       Some(d.music.(playing := true, volume := DefaultMusicVolume)))
  {
    Formats.SupportedPathLength(d.path, Formats.PlaylistFormats);
  }

  /** Making room stops and unloads the current entry exactly when it plays,
      and then moves `curr` on by one; no other entry changes. */
  lemma StopCurrentEffect(s: PlugState)
    ensures var r := StopCurrent(s);
      && r.curr == (if CurrPlaying(s) then s.curr + 1 else s.curr)
      && |r.list| == |s.list|
      && (forall k :: 0 <= k < |s.list| && k != s.curr ==> r.list[k] == s.list[k])
      && (CurrPlaying(s) ==> r.list[s.curr] == s.list[s.curr].(playing := false, unloaded := true))
      && r == s.(curr := r.curr, list := r.list)
  {
  }

  /** Loading one dropped file keeps the invariant; the list grows by one
      and the main screen is shown exactly when the file loads. */
  lemma DropFileInv(cfg: Config, s: PlugState, d: Dropped)
    requires cfg.Valid() && Inv(s) && d.Valid()
    ensures var r := DropFile(cfg, s, d);
      Inv(r) && r.track == s.track
      && |r.list| == |s.list| + (if Loads(d) then 1 else 0)
      && r.appState == (if Loads(d) then MainScreen else s.appState)
  {
    if Loads(d) {
      LoadMusicAccepts(cfg, s, d);
      StopCurrentEffect(s);
      var s1 := LoadMusic(cfg, s, d).0;
      var list := s1.list + [Started(d)];
      assert DropFile(cfg, s, d) == s1.(list := list);
      forall k | 0 <= k < |list|
        ensures list[k].frameCount > 0 && list[k].WellFormed()
      {
        if k == |s.list| {
          assert list[k] == Started(d);
        } else if k == s.curr && CurrPlaying(s) {
          assert list[k] == s.list[k].(playing := false, unloaded := true);
        } else {
          assert list[k] == s.list[k];
        }
      }
    } else {
      LoadMusicRejects(cfg, s, d);
    }
  }

  /** `plug_handle_dropped_files` keeps the invariant, grows the list by
      exactly the number of files that load, and shows the main screen once
      one has loaded. */
  lemma {:induction false} DropFilesInv(cfg: Config, s: PlugState, ds: seq<Dropped>)
    requires cfg.Valid() && Inv(s)
    requires forall k :: 0 <= k < |ds| ==> ds[k].Valid()
    ensures var r := DropFiles(cfg, s, ds);
      Inv(r) && r.track == s.track
      && |r.list| == |s.list| + LoadCount(ds)
      && r.appState == (if LoadCount(ds) > 0 then MainScreen else s.appState)
  {
    if ds != [] {
      DropFilesInv(cfg, s, ds[..|ds| - 1]);
      DropFileInv(cfg, DropFiles(cfg, s, ds[..|ds| - 1]), ds[|ds| - 1]);
    }
  }

  /** One drop keeps every entry, but for the one making room may stop and
      unload, and appends the started stream exactly when the file loads. */
  lemma DropFileContents(cfg: Config, s: PlugState, d: Dropped)
    requires cfg.Valid()
    ensures var r := DropFile(cfg, s, d).list;
      && |r| == |s.list| + (if Loads(d) then 1 else 0)
      && (forall k :: 0 <= k < |s.list| ==> SameOrSilenced(r[k], s.list[k]))
      && (Loads(d) ==> r[|s.list|] == Started(d))
  {
  }

  /**
   * What `plug_handle_dropped_files` appends: the list becomes the old
   * entries followed by the started streams of the files that load, in drop
   * order, except that making room for each new stream may have stopped and
   * unloaded an entry before it. The last stream appended is left as started.
   */
  lemma {:induction false} DropFilesContents(cfg: Config, s: PlugState, ds: seq<Dropped>)
    requires cfg.Valid()
    ensures var r, added := DropFiles(cfg, s, ds).list, LoadedStreams(ds);
      && |r| == |s.list + added|
      && (forall k :: 0 <= k < |r| ==> SameOrSilenced(r[k], (s.list + added)[k]))
      && (added != [] ==> r[|r| - 1] == added[|added| - 1])
  {
    if ds != [] {
      var init, d := ds[..|ds| - 1], ds[|ds| - 1];
      DropFilesContents(cfg, s, init);
      var r0 := DropFiles(cfg, s, init);
      DropFileContents(cfg, r0, d);
      var r := DropFile(cfg, r0, d).list;
      var before, after := s.list + LoadedStreams(init), s.list + LoadedStreams(ds);
      assert after == before + (if Loads(d) then [Started(d)] else []);
      forall k | 0 <= k < |r|
        ensures SameOrSilenced(r[k], after[k])
      {
        if k < |r0.list| {
          SilencedTwice(r[k], r0.list[k], before[k]);
          assert after[k] == before[k];
        } else {
          assert r[k] == Started(d) == after[k];
        }
      }
    }
  }

  /** Stopping and unloading twice is the same as doing it once. */
  lemma SilencedTwice(a: Music, b: Music, c: Music)
    requires SameOrSilenced(a, b) && SameOrSilenced(b, c)
    ensures SameOrSilenced(a, c)
  {
  }

  /** Every key keeps the invariant, the screen, the list's length and the seek bar. */
  lemma HandleKeyInv(cfg: Config, s: PlugState, key: Key, now: real)
    requires cfg.Valid() && Inv(s)
    ensures var r := HandleKey(cfg, s, key, now);
      Inv(r) && r.appState == s.appState && |r.list| == |s.list| && r.track == s.track
      && r.length == s.length && r.musicLoaded == s.musicLoaded
  {
  }

  /** A click keeps the invariant, the screen and the list's length. */
  lemma HandleClickInv(s: PlugState, click: Option<Vector2>)
    requires Inv(s)
    ensures var r := HandleClick(s, click);
      Inv(r) && r.appState == s.appState && |r.list| == |s.list| && r.curr == s.curr
  {
  }

  /**
   * The time update keeps the invariant. On the main screen with a current
   * entry, `time_check` is the time played over the length capped at 1, and
   * while the time played is within the length the cursor stays on the bar.
   */
  lemma UpdatePlaybackInv(s: PlugState, played: real)
    requires Inv(s) && played >= 0.0
    ensures var r := UpdatePlayback(s, played);
      && Inv(r) && r.appState == s.appState && |r.list| == |s.list| && r.curr == s.curr
      && r.musicVolume == s.musicVolume && r.showPopupMsg == s.showPopupMsg
      && r.popupStartTime == s.popupStartTime
      && r.track.start == s.track.start && r.track.end == s.track.end
      && (s.appState == MainScreen ==>
            && r.timePlayed == played && r.list[s.curr].timePlayed == played
            && r.timeCheck == (if played <= s.length then played / s.length else 1.0)
            && (played <= s.length ==> s.track.start.x <= r.track.cursor.x <= s.track.end.x))
  {
    if s.appState == MainScreen && played <= s.length {
      CursorOnBar(played, s.length, s.track);
    }
  }

  /** After the popup check the message is shown only while its time has
      not run out, and nothing else changes. */
  lemma PopupExpiry(cfg: Config, s: PlugState, now: real)
    ensures var r := ExpirePopup(cfg, s, now);
      && (r.showPopupMsg <==> s.showPopupMsg && now - s.popupStartTime < cfg.popupDuration)
      && r == s.(showPopupMsg := r.showPopupMsg)
  {
  }

  /** The screen and the playlist after the drops: the dropped files of a
      frame loaded on top of the state after an optional re-layout. */
  function AfterDrops(cfg: Config, s: PlugState, input: FrameInput): PlugState
    requires cfg.Valid()
  {
    DropFiles(cfg, if input.resized then Reinit(s, input.width, input.height) else s, input.dropped)
  }

  /** After the drops, the rest of `plug_frame` (keys, clicks, the time
      update and the popup) keeps the invariant, the screen and the list's
      length. */
  lemma FrameAfterDrops(cfg: Config, s: PlugState, input: FrameInput)
    requires cfg.Valid() && Inv(s) && input.Valid()
    ensures var s2, r := AfterDrops(cfg, s, input), Frame(cfg, s, input);
      && Inv(s2) && |s2.list| == |s.list| + LoadCount(input.dropped)
      && s2.appState == (if LoadCount(input.dropped) > 0 then MainScreen else s.appState)
      && Inv(r) && r.appState == s2.appState && |r.list| == |s2.list|
  {
    var s1 := if input.resized then Reinit(s, input.width, input.height) else s;
    DropFilesInv(cfg, s1, input.dropped);
    var s2 := DropFiles(cfg, s1, input.dropped);
    HandleKeyInv(cfg, s2, input.key, input.now);
    HandleClickInv(HandleKey(cfg, s2, input.key, input.now), input.click);
    var s3 := if s2.appState == MainScreen then HandleClick(HandleKey(cfg, s2, input.key, input.now), input.click) else s2;
    UpdatePlaybackInv(s3, input.played);
  }

  /** `plug_frame` keeps the invariant. */
  lemma FrameInv(cfg: Config, s: PlugState, input: FrameInput)
    requires cfg.Valid() && Inv(s) && input.Valid()
    ensures Inv(Frame(cfg, s, input))
  {
    FrameAfterDrops(cfg, s, input);
  }

  // ---------------------------------------------------------------------------
  // What the player promises

  /** `plug_init` starts on the waiting screen with an empty playlist, and the invariant holds. */
  lemma InitialInv(width: nat, height: nat)
    requires width > 0
    ensures var s := Initial(width, height);
      Inv(s) && s.appState == WaitingForFile && s.list == [] && s.curr == 0 && !s.musicLoaded
  {
  }

  /**
   * The main screen is shown after a frame exactly when it was shown before
   * or one of the frame's dropped files loaded: nothing ever returns the
   * player to the waiting screen.
   */
  lemma MainScreenIsFinal(cfg: Config, s: PlugState, input: FrameInput)
    requires cfg.Valid() && Inv(s) && input.Valid()
    ensures Frame(cfg, s, input).appState == MainScreen
            <==> s.appState == MainScreen || LoadCount(input.dropped) > 0
  {
    FrameAfterDrops(cfg, s, input);
  }

  /** A frame grows the playlist by exactly the number of dropped files
      that load; `DropFilesContents` says which streams they are. */
  lemma FramePlaylistGrowth(cfg: Config, s: PlugState, input: FrameInput)
    requires cfg.Valid() && Inv(s) && input.Valid()
    ensures |Frame(cfg, s, input).list| == |s.list| + LoadCount(input.dropped)
  {
    FrameAfterDrops(cfg, s, input);
  }

  /** While the waiting screen stays up, the pressed key and the click are ignored. */
  lemma InputIgnoredWhileWaiting(cfg: Config, s: PlugState, input: FrameInput)
    requires cfg.Valid() && Inv(s) && input.Valid()
    requires s.appState == WaitingForFile && LoadCount(input.dropped) == 0
    ensures Frame(cfg, s, input) == Frame(cfg, s, input.(key := NoKey, click := None))
  {
    FrameAfterDrops(cfg, s, input);
  }

  /** LEFT seeks the playing current entry back by the seek step, not below
      0, and shows the popup; nothing else changes. */
  lemma SeekBackClamps(cfg: Config, s: PlugState, now: real)
    requires cfg.Valid() && Inv(s) && CurrPlaying(s)
    ensures var m := s.list[s.curr];
      var t := Max(m.timePlayed - cfg.seekStep, 0.0);
      && 0.0 <= t <= m.timePlayed
      && (t == 0.0 || t == m.timePlayed - cfg.seekStep)
      && HandleKey(cfg, s, Left, now) == Popup(s.(list := s.list[s.curr := m.(timePlayed := t)]), now)
  {
  }

  /** RIGHT seeks the playing current entry forward by the seek step, not
      past its length, and shows the popup; nothing else changes. */
  lemma SeekForwardClamps(cfg: Config, s: PlugState, now: real)
    requires cfg.Valid() && Inv(s) && CurrPlaying(s)
    ensures var m := s.list[s.curr];
      var t := Min(m.timePlayed + cfg.seekStep, m.length);
      && 0.0 <= t <= m.length
      && (t == m.length || t == m.timePlayed + cfg.seekStep)
      && HandleKey(cfg, s, Right, now) == Popup(s.(list := s.list[s.curr := m.(timePlayed := t)]), now)
  {
  }

  /** UP and DOWN move the volume by the volume step within [0, 1] and give
      the current stream the same volume. */
  lemma VolumeKeysClamp(cfg: Config, s: PlugState, now: real)
    requires cfg.Valid() && Inv(s) && CurrPlaying(s)
    ensures var up := HandleKey(cfg, s, Up, now);
      && up.musicVolume == Min(s.musicVolume + cfg.volumeStep, 1.0)
      && s.musicVolume <= up.musicVolume <= 1.0
      && up.list[s.curr].volume == up.musicVolume && up.showPopupMsg
    ensures var down := HandleKey(cfg, s, Down, now);
      && down.musicVolume == Max(s.musicVolume - cfg.volumeStep, 0.0)
      && 0.0 <= down.musicVolume <= s.musicVolume
      && down.list[s.curr].volume == down.musicVolume && down.showPopupMsg
  {
  }

  /** LEFT, RIGHT, UP and DOWN do nothing unless the current entry exists
      and plays; when it does, they show the popup from `now`. */
  lemma SeekAndVolumeNeedPlayingStream(cfg: Config, s: PlugState, key: Key, now: real)
    requires key == Left || key == Right || key == Up || key == Down
    ensures var r := HandleKey(cfg, s, key, now);
      if CurrPlaying(s) then r.showPopupMsg && r.popupStartTime == now else r == s
  {
  }

  /** Two presses of SPACE restore the paused flag and leave the current
      stream playing exactly when the player is not paused. */
  lemma SpaceTwice(cfg: Config, s: PlugState, now: real)
    ensures var r := HandleKey(cfg, HandleKey(cfg, s, Space, now), Space, now);
      && r.musicPaused == s.musicPaused && r.curr == s.curr && |r.list| == |s.list|
      && (s.curr < |s.list| && Live(s.list[s.curr]) ==> r.list[s.curr].playing == !s.musicPaused)
  {
  }

  /**
   * N moves `curr` on by exactly one when a next entry exists, with no
   * wrap-around, and starts that entry; otherwise it does nothing.
   */
  lemma NextAdvancesByOne(cfg: Config, s: PlugState, now: real)
    requires Inv(s)
    ensures var r := HandleKey(cfg, s, KeyN, now);
      if s.curr + 1 < |s.list| then
        && r.curr == s.curr + 1 && |r.list| == |s.list|
        && (r.list[r.curr].playing <==> Live(s.list[r.curr]) && !s.list[r.curr].playing)
      else r == s
  {
  }

  /**
   * N stops and unloads the entry it is about to start when that one is
   * already playing, so it then stays silent, and leaves the entry it moves
   * away from as it was: a previously current stream that plays keeps playing.
   */
  lemma NextLeavesPreviousEntry(cfg: Config, s: PlugState, now: real)
    requires Inv(s) && s.curr + 1 < |s.list|
    ensures var r := HandleKey(cfg, s, KeyN, now);
      && r.list[s.curr] == s.list[s.curr]
      && (s.list[s.curr + 1].playing ==> r.list[s.curr + 1].unloaded && !r.list[s.curr + 1].playing)
  {
  }

  /**
   * P never changes `curr`. It starts entry `curr - 1` (after stopping and
   * unloading a playing current entry) only from entry 2 on, since the
   * lookup refuses entry 0; from entries 0 and 1 it does nothing.
   */
  lemma PrevKeepsCurrent(cfg: Config, s: PlugState, now: real)
    requires Inv(s)
    ensures var r := HandleKey(cfg, s, KeyP, now);
      && r.curr == s.curr
      && (2 <= s.curr < |s.list| ==>
            (r.list[s.curr - 1].playing <==> Live(s.list[s.curr - 1]) || s.list[s.curr - 1].playing)
            && (s.list[s.curr].playing ==> r.list[s.curr].unloaded && !r.list[s.curr].playing))
      && (s.curr < 2 ==> r == s)
  {
  }

  /**
   * A click on the bar while the current entry plays puts the cursor under
   * the mouse and seeks that entry to `ClickPosition`, a time within
   * [0, length]; nothing else changes. Any other click does nothing.
   */
  lemma ClickSeeksWithinLength(s: PlugState, p: Vector2)
    requires Inv(s)
    ensures var r := HandleClick(s, Some(p));
      if IsMouseOnTrack(p, s.track) && CurrPlaying(s) then
        && r == s.(track := s.track.(cursor := s.track.cursor.(x := p.x)),
                   list := s.list[s.curr := s.list[s.curr].(timePlayed := ClickPosition(p, s.track, s.length))])
        && 0.0 <= r.list[s.curr].timePlayed <= s.length
      else r == s
  {
  }

  /**
   * The click target is proportional: the bar's left end seeks to 0, its
   * right end to `length`, and a point further right never seeks earlier.
   */
  lemma ClickPositionScale(t: SeekTrack, length: real, p: Vector2, q: Vector2)
    requires t.start.x < t.end.x && length >= 0.0
    ensures ClickPosition(t.start, t, length) == 0.0
    ensures ClickPosition(t.end, t, length) == length
    ensures p.x <= q.x ==> ClickPosition(p, t, length) <= ClickPosition(q, t, length)
  {
    var w := t.end.x - t.start.x;
    if p.x <= q.x {
      var a, b := (p.x - t.start.x) / w, (q.x - t.start.x) / w;
      assert a * w == p.x - t.start.x && b * w == q.x - t.start.x;
      assert a <= b;
      assert a * length <= b * length;
    }
  }

  /** The bar's left end is on it, and a point more than three thicknesses
      below the bar, or left of it, is not. */
  lemma TrackHitTest(width: nat, height: nat, delta: real)
    requires width > 0 && delta > 0.0
    ensures var t := InitTrack(NoTrack, width, height, true);
      && IsMouseOnTrack(t.start, t)
      && IsMouseOnTrack(t.end, t)
      && !IsMouseOnTrack(Vector2(t.start.x, t.start.y + 3.0 * TrackThickness + delta), t)
      && !IsMouseOnTrack(Vector2(t.start.x - delta, t.start.y), t)
  {
  }

  /** `plug_free`: a current entry that plays is unloaded and the loaded
      flag is cleared. */
  function Free(s: PlugState): PlugState
  {
    var list := if CurrPlaying(s) then s.list[s.curr := UnloadStream(s.list[s.curr])] else s.list;
    s.(list := list, musicLoaded := false)
  }

  /** After `plug_free` no stream is loaded, the current entry is silent, and
      only the current entry changed. */
  lemma FreeSilencesCurrent(s: PlugState)
    requires Inv(s)
    ensures var r := Free(s);
      && !r.musicLoaded && |r.list| == |s.list| && !CurrPlaying(r)
      && (forall k :: 0 <= k < |s.list| && k != s.curr ==> r.list[k] == s.list[k])
      && (CurrPlaying(s) ==> r.list[s.curr].unloaded)
  {
  }
}
