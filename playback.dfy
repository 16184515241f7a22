/** The media engine behind the main window, reduced to the state the window
    reads and drives: playback state, whether the media has a video track,
    position and duration in milliseconds, and the loaded source. */
module Playback {
  datatype PlaybackState = Stopped | Playing | Paused

  datatype Player = Player(state: PlaybackState, hasVideo: bool, position: int, duration: int, source: string)

  /** What the engine learns about a file once it has loaded it. */
  datatype Media = Media(hasVideo: bool, duration: int)

  /** How far one press of the period key moves the position. */
  const StepMs := 1000

  /** A player with no source. */
  function Idle(): Player {
    Player(Stopped, false, 0, 0, "")
  }

  /** Setting a new source stops the player and rewinds it. */
  function Load(p: Player, source: string, media: Media): (r: Player)
    ensures r.state == Stopped && r.position == 0 && r.source == source
    ensures r.hasVideo == media.hasVideo && r.duration == media.duration
  {
    Player(Stopped, media.hasVideo, 0, media.duration, source)
  }

  function Play(p: Player): Player { p.(state := Playing) }

  function Pause(p: Player): Player { p.(state := Paused) }

  /** Stopping also resets the position to the beginning. */
  function Stop(p: Player): Player { p.(state := Stopped, position := 0) }

  function Seek(p: Player, position: int): Player { p.(position := position) }

  /** `play_pause_video`, engine side: no change without video; otherwise
      from Paused or Stopped to Playing and from Playing to Paused. Nothing
      but the state changes. */
  function TogglePlayback(p: Player): (r: Player)
    ensures !p.hasVideo ==> r == p
    ensures p.hasVideo ==> (r.state == Playing <==> p.state != Playing) && r.state != Stopped
    ensures r == p.(state := r.state)
  {
    if !p.hasVideo then p
    else if p.state.Paused? || p.state.Stopped? then Play(p)
    else Pause(p)
  }

  /** The period key: while Paused, play, seek 1000 ms ahead and pause
      again, so the engine shows the new frame; in any other state nothing. */
  function StepForward(p: Player): (r: Player)
    ensures p.state == Paused ==> r == p.(position := p.position + StepMs)
    ensures p.state != Paused ==> r == p
  {
    if p.state == Paused then Pause(Seek(Play(p), Play(p).position + StepMs)) else p
  }

  /** Toggling twice from Playing or Paused returns to where it started. */
  lemma ToggleTwiceRestores(p: Player)
    requires p.state != Stopped
    ensures TogglePlayback(TogglePlayback(p)) == p
  {
  }

  /** `n` presses of the period key. */
  function StepForwardTimes(p: Player, n: nat): Player {
    if n == 0 then p else StepForward(StepForwardTimes(p, n - 1))
  }

  /** `n` presses while Paused advance the position by exactly `n` seconds
      and leave the player Paused; in any other state they change nothing. */
  lemma {:induction false} StepsAccumulate(p: Player, n: nat)
    ensures p.state == Paused ==> StepForwardTimes(p, n) == p.(position := p.position + n * StepMs)
    ensures p.state != Paused ==> StepForwardTimes(p, n) == p
  {
    if n > 0 {
      StepsAccumulate(p, n - 1);
    }
  }
}
