/**
 * The part of raylib the player talks to, as plain values: a music stream
 * record, the keys it polls, 2D points, the MIN/MAX macros of the C headers
 * and the IEEE result of the `time_played / length` division.
 */
module Audio {

  /**
   * One decoded music stream (raylib's `Music` together with the state of
   * its audio buffer). `length` is what GetMusicTimeLength reports,
   * `timePlayed` what GetMusicTimePlayed reports, `playing` what
   * IsMusicStreamPlaying reports, `volume` the last SetMusicVolume value and
   * `unloaded` whether UnloadMusicStream has been called on it.
   */
  datatype Music = Music(frameCount: nat, length: real, playing: bool, timePlayed: real, volume: real, unloaded: bool)
  {
    /** What raylib guarantees of a stream it hands out: the length is the
        frame count over the sample rate, so it is positive once there are frames. */
    predicate WellFormed()
    {
      length >= 0.0 && (frameCount > 0 ==> length > 0.0) && timePlayed >= 0.0
    }
  }

  /** `DEFAULT_MUSIC_VOLUME`: the volume both players give every newly
      loaded stream. */
  const DefaultMusicVolume: real := 0.1

  /** The zero-initialised `Music` of `(Music) {0}`. */
  const NoMusic := Music(0, 0.0, false, 0.0, 0.0, false)

  /** The stream has an audio buffer: it was decoded and has not been unloaded.
      raylib's play and resume calls do nothing on a stream without one. */
  predicate Live(m: Music) { m.frameCount > 0 && !m.unloaded }

  function PlayStream(m: Music): Music { if Live(m) then m.(playing := true) else m }
  function StopStream(m: Music): Music { m.(playing := false) }
  function PauseStream(m: Music): Music { m.(playing := false) }
  function ResumeStream(m: Music): Music { if Live(m) then m.(playing := true) else m }
  function UnloadStream(m: Music): Music { m.(playing := false, unloaded := true) }
  function SeekStream(m: Music, t: real): Music { m.(timePlayed := t) }
  /** `UpdateMusicStream` followed by `GetMusicTimePlayed`: the stream has
      now played `played` seconds, which is what the call reports. */
  function UpdateStream(m: Music, played: real): Music { m.(timePlayed := played) }
  function SetStreamVolume(m: Music, v: real): Music { m.(volume := v) }

  /** One entry of `LoadDroppedFiles()`: its path and the stream
      `LoadMusicStream` makes of it (no frames when decoding failed). */
  datatype Dropped = Dropped(path: string, music: Music)
  {
    /** A C string holds no NUL, and a freshly loaded stream is well formed,
        silent and not unloaded. */
    predicate Valid()
    {
      '\0' !in path && music.WellFormed() && !music.playing && !music.unloaded
    }
  }

  /** The first key, in the order the handlers test them, that IsKeyPressed reports this frame. */
  datatype Key = NoKey | Space | Left | Right | Up | Down | KeyN | KeyP

  datatype Vector2 = Vector2(x: real, y: real)

  /** `#define MAX(a, b) ((a) > (b) ? (a) : (b))` */
  function Max(a: real, b: real): (r: real)
    ensures r >= a && r >= b && (r == a || r == b)
  {
    if a > b then a else b
  }

  /** `#define MIN(a, b) ((a) < (b) ? (a) : (b))` */
  function Min(a: real, b: real): (r: real)
    ensures r <= a && r <= b && (r == a || r == b)
  {
    if a < b then a else b
  }

  /** A float that may be NaN: the only non-finite value `time_check` can hold. */
  datatype Ratio = Finite(value: real) | NaN

  /**
   * `time_check = time_played / length; if (time_check > 1) time_check = 1;`
   * in IEEE arithmetic, for a non-negative time played: a zero length gives
   * +inf (capped to 1) or, when nothing was played, 0/0 = NaN, which the
   * `> 1` test lets through.
   */
  function TimeCheck(played: real, length: real): (r: Ratio)
    requires played >= 0.0 && length >= 0.0
    ensures r.Finite? ==> 0.0 <= r.value <= 1.0
    ensures r.NaN? <==> played == 0.0 && length == 0.0
    ensures length > 0.0 && played <= length ==> r == Finite(played / length)
    ensures played >= length && (played, length) != (0.0, 0.0) ==> r == Finite(1.0)
  {
    if length > 0.0 then
      var q := played / length;
      Finite(if q > 1.0 then 1.0 else q)
    else if played > 0.0 then Finite(1.0)
    else NaN
  }
}
