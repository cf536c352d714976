/**
 * The terminal front end of the earlier Rust player (`UI` in ui.rs). It
 * keeps the position and volume it shows, a pause flag and an exit flag;
 * key presses update them and send the matching `Action` to the player
 * thread, and the position advances by what the player thread reports.
 * The actions sent over the channel are kept as a ghost log.
 */
module Tui {
  import opened Wrappers
  import Audio

  /** action.rs: what the front end asks the player thread to do. */
  datatype Action = SetVol(volume: real) | SeekForward(seconds: real) | SeekBackward(seconds: real) | Pause | Exit

  /** The key codes the front end tells apart. */
  datatype KeyCode = Char(c: char) | Right | Left | Up | Down | OtherKey
  datatype KeyKind = Press | Release | Repeat
  /** A terminal event: a key event or anything else (mouse, resize, focus). */
  datatype Event = KeyEvent(code: KeyCode, kind: KeyKind) | OtherEvent

  /** One pass of `run`'s loop: the value taken from the player's channel, if
      any, the event read when one was waiting, and whether `t.draw`,
      `event::poll` or `event::read` failed, which makes `?` leave `run`. */
  datatype Tick = Tick(received: Option<real>, event: Option<Event>, ioError: bool)

  /** Seconds one LEFT or RIGHT press seeks. */
  const SeekSeconds: real := 5.0
  /** Volume one UP or DOWN press adds or removes. */
  const VolumeStep: real := 0.05

  /** The `UI` fields other than the channels. */
  datatype UIState = UIState(vol: real, pos: real, len: real, name: string, exit: bool, pause: bool)
  {
    /** The ranges the front end keeps: volume in [0, 1], position in [0, len]. */
    predicate InRange()
    {
      0.0 <= vol <= 1.0 && 0.0 <= pos <= len
    }
  }

  /** `UI::new`: position 0, neither exiting nor paused. */
  function NewState(vol: real, len: real, name: string): UIState
  {
    UIState(vol, 0.0, len, name, false, false)
  }

  /** `handle_events`: the new state and the action sent, if any. Only key
      presses are handled. */
  function OnEvent(v: UIState, e: Event): (UIState, Option<Action>)
  {
    match e
    case KeyEvent(code, Press) =>
      (match code
       case Char(c) =>
         if c == 'q' then (v.(exit := true), None)
         else if c == ' ' then (v.(pause := !v.pause), Some(Pause))
         else (v, None)
       case Right => (v.(pos := Audio.Min(v.pos + SeekSeconds, v.len)), Some(SeekForward(SeekSeconds)))
       case Left => (v.(pos := Audio.Max(v.pos - SeekSeconds, 0.0)), Some(SeekBackward(SeekSeconds)))
       case Up =>
         var vol := Audio.Min(v.vol + VolumeStep, 1.0);
         (v.(vol := vol), Some(SetVol(vol)))
       case Down =>
         var vol := Audio.Max(v.vol - VolumeStep, 0.0);
         (v.(vol := vol), Some(SetVol(vol)))
       case OtherKey => (v, None))
    case _ => (v, None)
  }

  /** A value `delta` received from the player thread: ignored while paused;
      otherwise a position at the end wraps to 0 first, then `delta` is
      added, capped at the length. */
  function Advance(v: UIState, delta: real): UIState
  {
    if v.pause then v
    else
      var start := if v.pos == v.len then 0.0 else v.pos;
      v.(pos := Audio.Min(start + delta, v.len))
  }

  /** One pass of `run`'s loop: the received value, then the event, unless
      the drawing or the polling failed first. */
  function TickStep(v: UIState, t: Tick): (UIState, seq<Action>)
  {
    var v1 := if t.received.Some? then Advance(v, t.received.value) else v;
    if t.ioError then (v1, [])
    else if t.event.Some? then
      var (v2, a) := OnEvent(v1, t.event.value);
      (v2, if a.Some? then [a.value] else [])
    else (v1, [])
  }

  /**
   * `run` over the passes `script` describes: the loop stops as soon as the
   * exit flag is set and then sends `Exit`. A failed pass returns the error
   * at once and sends nothing more; when the script ends first the window
   * is still open and nothing more is sent.
   */
  function RunTicks(v: UIState, script: seq<Tick>): (UIState, seq<Action>)
    decreases |script|
  {
    if v.exit then (v, [Exit])
    else if script == [] then (v, [])
    else
      var (v1, a1) := TickStep(v, script[0]);
      if script[0].ioError then (v1, a1)
      else
        var (v2, a2) := RunTicks(v1, script[1..]);
        (v2, a1 + a2)
  }

  /** Whether `run` over `script` leaves through `?`: a pass fails before
      the exit flag is set. */
  predicate RunFails(v: UIState, script: seq<Tick>)
    decreases |script|
  {
    !v.exit && script != [] && (script[0].ioError || RunFails(TickStep(v, script[0]).0, script[1..]))
  }

  class UI {
    var musicVol: real
    var musicPos: real
    var musicLen: real
    var musicName: string
    var localExit: bool
    var localPause: bool
    /** The actions sent on `action_sx`, in order. */
    ghost var sent: seq<Action>

    function State(): UIState
      reads this
    {
      UIState(musicVol, musicPos, musicLen, musicName, localExit, localPause)
    }

    /** `UI::new`; nothing has been sent yet. */
    constructor(musicVol: real, musicLen: real, musicName: string)
      ensures State() == NewState(musicVol, musicLen, musicName) && sent == []
    {
      this.musicVol := musicVol;
      musicPos := 0.0;
      this.musicLen := musicLen;
      this.musicName := musicName;
      localExit := false;
      localPause := false;
      sent := [];
    }

    /** `handle_events`. */
    method HandleEvents(e: Event)
      modifies this
      ensures State() == OnEvent(old(State()), e).0
      ensures sent == old(sent) + (var a := OnEvent(old(State()), e).1; if a.Some? then [a.value] else [])
    {
      if e.KeyEvent? && e.kind == Press {
        match e.code {
          case Char(c) =>
            if c == 'q' {
              localExit := true;
            } else if c == ' ' {
              localPause := !localPause;
              sent := sent + [Pause];
            }
          case Right =>
            musicPos := Audio.Min(musicPos + SeekSeconds, musicLen);
            sent := sent + [SeekForward(SeekSeconds)];
          case Left =>
            musicPos := Audio.Max(musicPos - SeekSeconds, 0.0);
            sent := sent + [SeekBackward(SeekSeconds)];
          case Up =>
            musicVol := Audio.Min(musicVol + VolumeStep, 1.0);
            sent := sent + [SetVol(musicVol)];
          case Down =>
            musicVol := Audio.Max(musicVol - VolumeStep, 0.0);
            sent := sent + [SetVol(musicVol)];
          case OtherKey =>
        }
      }
    }

    /** One pass of `run`'s loop: a value received while not paused
        advances the position, then, unless drawing or polling failed, a
        waiting event is handled. `ok` is false when `?` leaves `run`. */
    method Pass(t: Tick) returns (ok: bool)
      modifies this
      ensures ok == !t.ioError
      ensures State() == TickStep(old(State()), t).0
      ensures sent == old(sent) + TickStep(old(State()), t).1
    {
      ghost var v0 := State();
      if t.received.Some? && !localPause {
        if musicPos == musicLen {
          musicPos := 0.0;
        }
        musicPos := Audio.Min(musicPos + t.received.value, musicLen);
      }
      assert State() == if t.received.Some? then Advance(v0, t.received.value) else v0;
      if t.ioError {
        return false;
      }
      if t.event.Some? {
        HandleEvents(t.event.value);
      }
      return true;
    }

    /** `run`: the loop until the exit flag is set, then `Exit` is sent; a
        failed pass returns the error (`ok` false) without sending it.
        Drawing changes nothing here. */
    method Run(script: seq<Tick>) returns (ok: bool)
      modifies this
      ensures ok == !RunFails(old(State()), script)
      ensures State() == RunTicks(old(State()), script).0
      ensures sent == old(sent) + RunTicks(old(State()), script).1
    {
      ghost var v0 := State();
      ghost var s0 := sent;
      ghost var done: seq<Action> := [];
      var i := 0;
      ok := true;
      while ok && !localExit && i < |script|
        invariant 0 <= i <= |script|
        invariant sent == s0 + done
        invariant ok ==> RunSoFar(v0, script, i, State(), done)
        invariant !ok ==> RunTicks(v0, script) == (State(), done) && RunFails(v0, script)
      {
        ghost var v1 := State();
        ok := Pass(script[i]);
        RunTicksStep(v0, script, i, v1, done);
        done := done + TickStep(v1, script[i]).1;
        i := i + 1;
      }
      if ok && localExit {
        sent := sent + [Exit];
      }
    }
  }

  // ---------------------------------------------------------------------------
  // What the front end promises

  /** Key events keep the volume in [0, 1] and the position in [0, len]. */
  lemma OnEventInRange(v: UIState, e: Event)
    requires v.InRange()
    ensures OnEvent(v, e).0.InRange()
  {
  }

  /** A received value, which the player thread only ever sends as a
      non-negative number of seconds, keeps the position in [0, len]. */
  lemma AdvanceInRange(v: UIState, delta: real)
    requires v.InRange() && delta >= 0.0
    ensures Advance(v, delta).InRange()
  {
  }

  /** Every handled press sends exactly the action that matches it, and no
      key ever sends `Exit`. */
  lemma OneActionPerKey(v: UIState, code: KeyCode)
    ensures var (r, a) := OnEvent(v, KeyEvent(code, Press));
      && (code == Right ==> a == Some(SeekForward(SeekSeconds)))
      && (code == Left ==> a == Some(SeekBackward(SeekSeconds)))
      && (code == Up || code == Down ==> a == Some(SetVol(r.vol)))
      && (code == Char(' ') ==> a == Some(Pause))
      && (code == Char('q') ==> a == None && r.exit)
      && a != Some(Exit)
  {
  }

  /** Only key presses do anything: releases, repeats and other events
      leave the state alone and send nothing. */
  lemma OnlyPressesCount(v: UIState, e: Event)
    requires !(e.KeyEvent? && e.kind == Press)
    ensures OnEvent(v, e) == (v, None)
  {
  }

  /** Two presses of SPACE restore the pause flag and send two `Pause`s. */
  lemma SpaceTwice(v: UIState)
    ensures var (v1, a1) := OnEvent(v, KeyEvent(Char(' '), Press));
      var (v2, a2) := OnEvent(v1, KeyEvent(Char(' '), Press));
      v2 == v && a1 == Some(Pause) && a2 == Some(Pause)
  {
  }

  /** The advance rule: nothing moves while paused; a position at the end
      starts again from 0; otherwise `delta` is added up to the length. */
  lemma AdvanceWraps(v: UIState, delta: real)
    ensures v.pause ==> Advance(v, delta) == v
    ensures !v.pause && v.pos == v.len ==> Advance(v, delta).pos == Audio.Min(delta, v.len)
    ensures !v.pause && v.pos != v.len ==> Advance(v, delta).pos == Audio.Min(v.pos + delta, v.len)
  {
  }

  /** A whole run keeps the ranges. */
  lemma {:induction false} RunTicksInRange(v: UIState, script: seq<Tick>)
    requires v.InRange()
    requires forall k :: 0 <= k < |script| ==> script[k].received.Some? ==> script[k].received.value >= 0.0
    ensures RunTicks(v, script).0.InRange()
    decreases |script|
  {
    if !v.exit && script != [] {
      var t := script[0];
      var v1 := if t.received.Some? then Advance(v, t.received.value) else v;
      if t.received.Some? {
        AdvanceInRange(v, t.received.value);
      }
      if t.event.Some? {
        OnEventInRange(v1, t.event.value);
      }
      RunTicksInRange(TickStep(v, t).0, script[1..]);
    }
  }

  /**
   * `Exit` is sent at most once in a run, only as the last action, and
   * exactly when the run ends with the exit flag set.
   */
  lemma {:induction false} ExitSentOnceAtEnd(v: UIState, script: seq<Tick>)
    ensures var (r, sent) := RunTicks(v, script);
      && (forall k :: 0 <= k < |sent| - 1 ==> sent[k] != Exit)
      && (r.exit <==> |sent| > 0 && sent[|sent| - 1] == Exit)
    decreases |script|
  {
    if !v.exit && script != [] {
      var (v1, a1) := TickStep(v, script[0]);
      TickStepNeverExits(v, script[0]);
      if !script[0].ioError {
        ExitSentOnceAtEnd(v1, script[1..]);
        var (r, a2) := RunTicks(v1, script[1..]);
        assert RunTicks(v, script) == (r, a1 + a2);
      }
    }
  }

  /**
   * A run that leaves through `?` never sends `Exit` and ends with the exit
   * flag clear, so the player thread, which stops only on `Exit`, is never
   * told to stop.
   */
  lemma {:induction false} IoErrorSendsNoExit(v: UIState, script: seq<Tick>)
    requires RunFails(v, script)
    ensures Exit !in RunTicks(v, script).1 && !RunTicks(v, script).0.exit
    decreases |script|
  {
    var (v1, a1) := TickStep(v, script[0]);
    TickStepNeverExits(v, script[0]);
    if !script[0].ioError {
      IoErrorSendsNoExit(v1, script[1..]);
      var (r, a2) := RunTicks(v1, script[1..]);
      assert RunTicks(v, script) == (r, a1 + a2);
    }
  }

  /** A pass of the loop before the exit flag is set: a failed pass ends
      the run, any other is followed by the rest of it. */
  lemma RunTicksUnfold(v: UIState, script: seq<Tick>)
    requires !v.exit && script != []
    ensures script[0].ioError ==> RunTicks(v, script) == TickStep(v, script[0]) && RunFails(v, script)
    ensures !script[0].ioError ==>
      && RunTicks(v, script).0 == RunTicks(TickStep(v, script[0]).0, script[1..]).0
      && RunTicks(v, script).1 == TickStep(v, script[0]).1 + RunTicks(TickStep(v, script[0]).0, script[1..]).1
      && RunFails(v, script) == RunFails(TickStep(v, script[0]).0, script[1..])
  {
  }

  /** After `i` passes of a run from `v0` the state is `v`, the actions
      sent so far are `done`, and the rest of the run is `script[i..]`
      from `v`. */
  ghost predicate RunSoFar(v0: UIState, script: seq<Tick>, i: nat, v: UIState, done: seq<Action>)
    requires i <= |script|
  {
    && RunTicks(v0, script).0 == RunTicks(v, script[i..]).0
    && RunTicks(v0, script).1 == done + RunTicks(v, script[i..]).1
    && RunFails(v0, script) == RunFails(v, script[i..])
  }

  /** One more pass of a run that has not yet exited: a failed pass ends the
      run there, any other pass carries the run one tick further. */
  lemma RunTicksStep(v0: UIState, script: seq<Tick>, i: nat, v: UIState, done: seq<Action>)
    requires i < |script| && !v.exit && RunSoFar(v0, script, i, v, done)
    ensures var (v1, a) := TickStep(v, script[i]);
      && (script[i].ioError ==> RunTicks(v0, script) == (v1, done + a) && RunFails(v0, script))
      && (!script[i].ioError ==> RunSoFar(v0, script, i + 1, v1, done + a))
  {
    RunTicksUnfold(v, script[i..]);
    assert script[i..][1..] == script[i + 1..];
    assert script[i..][0] == script[i];
    var (v1, a) := TickStep(v, script[i]);
    if !script[i].ioError {
      var rest := RunTicks(v1, script[i + 1..]).1;
      assert done + (a + rest) == (done + a) + rest;
    }
  }

  /** One pass sends at most one action, and never `Exit`; a failed pass
      sends nothing and leaves the exit flag alone. */
  lemma TickStepNeverExits(v: UIState, t: Tick)
    ensures |TickStep(v, t).1| <= 1 && Exit !in TickStep(v, t).1
    ensures t.ioError ==> TickStep(v, t).0.exit == v.exit && TickStep(v, t).1 == []
  {
  }

  /** A `q` press ends the run: whatever follows is never looked at and
      the last action sent is `Exit`. */
  lemma QuitEndsRun(v: UIState, rest: seq<Tick>)
    requires !v.exit
    ensures var (r, sent) := RunTicks(v, [Tick(None, Some(KeyEvent(Char('q'), Press)), false)] + rest);
      r == v.(exit := true) && sent == [Exit]
  {
    var script := [Tick(None, Some(KeyEvent(Char('q'), Press)), false)] + rest;
    assert script[0] == Tick(None, Some(KeyEvent(Char('q'), Press)), false);
  }
}
