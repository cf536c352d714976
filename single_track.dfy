/**
 * The single-track player that plug.c (`plug_frame`, `plug_init`,
 * `plug_free`) and play.c (the body of `main`'s window loop) both implement:
 * one stream, a pause flag, a loaded flag, the time played, the progress
 * ratio and the song name text. A drop replaces the stream; SPACE, LEFT and
 * RIGHT pause and seek; each frame reads the time played back from the stream.
 */
module SingleTrack {
  import opened Audio
  import Formats
  import SongName

  /** `DEFAULT_MUSIC_STEP`: seconds one LEFT or RIGHT press seeks. */
  const MusicStep: real := 5.0
  /** `SONG_NAME_CAP`: the size of the song name buffer. */
  const SongNameCap: nat := 256
  /** `NAME_TEXT_CAP`: the size of the name text buffer. */
  const NameTextCap: nat := 512

  /**
   * The player's state. `released` records, in order, every stream handed to
   * `UnloadMusicStream`, which is the only trace an unloaded stream leaves.
   */
  datatype Player = Player(
    pause: bool,
    musicLoaded: bool,
    music: Music,
    timePlayed: real,
    timeCheck: Ratio,
    nameText: string,
    released: seq<Music>)

  /**
   * What raylib reports during one frame: the dropped files (empty when
   * none were dropped), the first of SPACE, LEFT, RIGHT that is pressed and
   * what `GetMusicTimePlayed` returns after `UpdateMusicStream`.
   */
  datatype FrameInput = FrameInput(dropped: seq<Dropped>, key: Key, played: real)
  {
    predicate Valid()
    {
      played >= 0.0 && forall k :: 0 <= k < |dropped| ==> dropped[k].Valid()
    }
  }

  /** What every frame keeps true. */
  predicate Inv(p: Player)
  {
    p.music.WellFormed()
    && p.timePlayed >= 0.0
    && (p.timeCheck.Finite? ==> 0.0 <= p.timeCheck.value <= 1.0)
    && |p.nameText| < NameTextCap
  }

  /** `plug_init` in plug.c and the declarations before play.c's loop; the
      stream is the zero `Music` (play.c leaves it uninitialised). */
  const Initial := Player(false, false, NoMusic, 0.0, Finite(0.0), SongName.NamePrefix, [])

  /** `"Song name: %s"` over the name `get_song_name` (or `collect_from_end`)
      extracts into a `SONG_NAME_CAP` buffer. */
  function NameText(path: string, delim: char): string
    requires |path| > 0
  {
    SongName.NamePrefix + SongName.SongName(path, delim, SongNameCap)
  }

  /**
   * The drop handling: only the first dropped path is looked at. When it is
   * music, a loaded stream is stopped and unloaded, the new stream replaces
   * it at the default volume, and only a stream with frames sets the loaded
   * flag, the name text and starts playing.
   */
  function Drop(delim: char, p: Player, files: seq<Dropped>): Player
  {
    if files == [] || !Formats.Supported(files[0].path, Formats.SingleTrackFormats) then p
    else
      var d := files[0];
      var released := if p.musicLoaded then p.released + [UnloadStream(StopStream(p.music))] else p.released;
      var music := SetStreamVolume(d.music, DefaultMusicVolume);
      if music.frameCount != 0 then
        Formats.SupportedPathLength(d.path, Formats.SingleTrackFormats);
        p.(released := released, music := PlayStream(music), musicLoaded := true, nameText := NameText(d.path, delim))
      else
        p.(released := released, music := music)
  }

  /** SPACE flips the pause flag and pauses or resumes the stream; LEFT and
      RIGHT seek a playing stream by `DEFAULT_MUSIC_STEP` within [0, length]. */
  function PressKey(p: Player, key: Key): Player
  {
    match key
    case Space =>
      var pause := !p.pause;
      p.(pause := pause, music := if pause then PauseStream(p.music) else ResumeStream(p.music))
    case Left =>
      if p.music.playing then p.(music := SeekStream(p.music, Max(p.music.timePlayed - MusicStep, 0.0))) else p
    case Right =>
      if p.music.playing then p.(music := SeekStream(p.music, Min(p.music.timePlayed + MusicStep, p.music.length))) else p
    case _ => p
  }

  /** With the loaded flag set: the time played is read back and
      `time_check` becomes the time played over the stream's length, capped at 1. */
  function Update(p: Player, played: real): Player
    requires played >= 0.0 && p.music.WellFormed()
  {
    if p.musicLoaded then
      p.(music := UpdateStream(p.music, played), timePlayed := played, timeCheck := TimeCheck(played, p.music.length))
    else p
  }

  /** One frame: drop, keys, time update. */
  function Frame(delim: char, p: Player, input: FrameInput): Player
    requires Inv(p) && input.Valid()
  {
    DropInv(delim, p, input.dropped);
    var p1 := Drop(delim, p, input.dropped);
    KeyInv(p1, input.key);
    Update(PressKey(p1, input.key), input.played)
  }

  /** The frames of a run, in order. */
  function RunFrames(delim: char, p: Player, inputs: seq<FrameInput>): Player
    requires Inv(p) && forall k :: 0 <= k < |inputs| ==> inputs[k].Valid()
    decreases |inputs|, 0
  {
    if inputs == [] then p
    else
      RunFramesInv(delim, p, inputs[..|inputs| - 1]);
      Frame(delim, RunFrames(delim, p, inputs[..|inputs| - 1]), inputs[|inputs| - 1])
  }

  /** `plug_free` in plug.c: a playing stream is unloaded and the loaded flag cleared. */
  function Free(p: Player): Player
  {
    if p.music.playing then
      p.(music := UnloadStream(p.music), released := p.released + [UnloadStream(p.music)], musicLoaded := false)
    else p.(musicLoaded := false)
  }

  /** The `UnloadMusicStream(music)` after play.c's loop: unconditional. */
  function Shutdown(p: Player): Player
  {
    p.(music := UnloadStream(p.music), released := p.released + [UnloadStream(p.music)])
  }

  // ---------------------------------------------------------------------------
  // The invariant

  /** The name text fits its buffer: `"Song name: "` and at most 255
      characters of name, so `snprintf` never truncates it. */
  lemma NameTextFits(path: string, delim: char)
    requires |path| > 0
    ensures |NameText(path, delim)| < NameTextCap
  {
    SongName.SongNameFits(path, delim, SongNameCap);
  }

  lemma DropInv(delim: char, p: Player, files: seq<Dropped>)
    requires Inv(p) && forall k :: 0 <= k < |files| ==> files[k].Valid()
    ensures Inv(Drop(delim, p, files))
  {
    if files != [] && Formats.Supported(files[0].path, Formats.SingleTrackFormats) {
      Formats.SupportedPathLength(files[0].path, Formats.SingleTrackFormats);
      NameTextFits(files[0].path, delim);
    }
  }

  lemma KeyInv(p: Player, key: Key)
    requires Inv(p)
    ensures Inv(PressKey(p, key))
  {
  }

  lemma FrameInv(delim: char, p: Player, input: FrameInput)
    requires Inv(p) && input.Valid()
    ensures Inv(Frame(delim, p, input))
  {
    DropInv(delim, p, input.dropped);
    KeyInv(Drop(delim, p, input.dropped), input.key);
  }

  lemma {:induction false} RunFramesInv(delim: char, p: Player, inputs: seq<FrameInput>)
    requires Inv(p) && forall k :: 0 <= k < |inputs| ==> inputs[k].Valid()
    ensures Inv(RunFrames(delim, p, inputs))
    decreases |inputs|, 1
  {
    if inputs != [] {
      RunFramesInv(delim, p, inputs[..|inputs| - 1]);
      FrameInv(delim, RunFrames(delim, p, inputs[..|inputs| - 1]), inputs[|inputs| - 1]);
    }
  }

  // ---------------------------------------------------------------------------
  // What the player promises

  /** The initial state keeps the invariant: nothing loaded, not paused, no time. */
  lemma InitialInv()
    ensures Inv(Initial) && !Initial.musicLoaded && !Initial.pause && Initial.timePlayed == 0.0
  {
  }

  /** Only the first dropped path matters. */
  lemma DropReadsFirstPathOnly(delim: char, p: Player, files: seq<Dropped>)
    requires |files| > 0
    ensures Drop(delim, p, files) == Drop(delim, p, files[..1])
  {
  }

  /**
   * A drop stops and unloads the old stream exactly when the first path is
   * music and the loaded flag is set; otherwise nothing is released.
   */
  lemma DropReleasesOnlyLoaded(delim: char, p: Player, files: seq<Dropped>)
    ensures var r := Drop(delim, p, files);
      if files != [] && Formats.Supported(files[0].path, Formats.SingleTrackFormats) && p.musicLoaded
      then r.released == p.released + [p.music.(playing := false, unloaded := true)]
      else r.released == p.released
  {
  }

  /** The loaded flag is set by a drop only for a music path whose stream
      has frames, and once set a drop never clears it. */
  lemma LoadedNeedsFrames(delim: char, p: Player, files: seq<Dropped>)
    ensures var r := Drop(delim, p, files);
      r.musicLoaded <==>
        (p.musicLoaded
         || (files != [] && Formats.Supported(files[0].path, Formats.SingleTrackFormats) && files[0].music.frameCount != 0))
    ensures var r := Drop(delim, p, files);
      r.musicLoaded && !p.musicLoaded ==> r.music.frameCount != 0
  {
  }

  /**
   * A drop of a music path that fails to decode leaves the loaded flag set
   * over a stream without frames, so when no time is reported played the
   * next `time_check` is 0/0: NaN, which the `> 1` cap lets through.
   */
  lemma FailedDropGivesNaN(delim: char, p: Player, d: Dropped)
    requires Inv(p) && d.Valid() && p.musicLoaded
    requires Formats.Supported(d.path, Formats.SingleTrackFormats) && d.music.frameCount == 0
    ensures d.music.length == 0.0 ==>
      Frame(delim, p, FrameInput([d], NoKey, 0.0)).timeCheck == NaN
    ensures Frame(delim, p, FrameInput([d], NoKey, 0.0)).musicLoaded
  {
  }

  /** After a frame with the loaded flag set, `time_check` is never above 1:
      it is the time played over the length when that is finite, else 1 or NaN. */
  lemma TimeCheckCapped(delim: char, p: Player, input: FrameInput)
    requires Inv(p) && input.Valid()
    ensures var r := Frame(delim, p, input);
      && (r.timeCheck.Finite? ==> r.timeCheck.value <= 1.0)
      && (r.musicLoaded && r.music.length > 0.0 ==>
            r.timeCheck == Finite(if input.played <= r.music.length then input.played / r.music.length else 1.0))
  {
    FrameInv(delim, p, input);
  }

  /** Two presses of SPACE restore the pause flag. */
  lemma SpaceTwice(p: Player)
    ensures PressKey(PressKey(p, Space), Space).pause == p.pause
    ensures Live(p.music) ==> PressKey(PressKey(p, Space), Space).music.playing == !p.pause
  {
  }

  /**
   * On a playing stream LEFT seeks to `MAX(t - DEFAULT_MUSIC_STEP, 0)` and
   * RIGHT to `MIN(t + DEFAULT_MUSIC_STEP, length)`, and nothing else changes;
   * a silent stream is left alone. Either way LEFT moves back by at most the
   * step and not below 0, and RIGHT moves forward by at most the step and,
   * from a time within the length, stays within it.
   */
  lemma SeekClamps(p: Player)
    requires Inv(p)
    ensures p.music.playing ==>
      PressKey(p, Left) == p.(music := p.music.(timePlayed := Max(p.music.timePlayed - MusicStep, 0.0)))
    ensures p.music.playing ==>
      PressKey(p, Right) == p.(music := p.music.(timePlayed := Min(p.music.timePlayed + MusicStep, p.music.length)))
    ensures !p.music.playing ==> PressKey(p, Left) == p && PressKey(p, Right) == p
    ensures var l := PressKey(p, Left).music.timePlayed;
      0.0 <= l <= p.music.timePlayed && p.music.timePlayed - MusicStep <= l
    ensures var r := PressKey(p, Right).music.timePlayed;
      && r <= p.music.timePlayed + MusicStep
      && (p.music.timePlayed <= p.music.length ==> p.music.timePlayed <= r <= p.music.length)
  {
  }

  /** `plug_free` clears the loaded flag and leaves no stream playing. */
  lemma FreeSilences(p: Player)
    ensures var r := Free(p);
      && !r.musicLoaded && !r.music.playing
      && r.released == p.released + (if p.music.playing then [p.music.(playing := false, unloaded := true)] else [])
  {
  }

  /** After play.c's loop the last stream is released whatever state it is
      in, even when nothing was ever loaded. */
  lemma ShutdownReleasesLast(p: Player)
    ensures var r := Shutdown(p);
      && r.released == p.released + [p.music.(playing := false, unloaded := true)]
      && r.music.unloaded && !r.music.playing
  {
  }
}
