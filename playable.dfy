/** The `IPlayable` lifecycle (src/Plugin/IPlayable.h): one effect's playback
    state and elapsed time. The concrete `PlayableEffect` is not part of this
    model; its behaviour here is what the interface comments promise and what
    the effect player tests pin down (src/Plugin/test/test_main.cpp:58-198):
    a new effect is idle at time 0, time advances only while playing, a pause
    keeps the time reached, a stop ends playback and keeps the time, and an
    effect updated past its duration stops with its time not clamped. */
module Playable {

  /** Where an effect is in its lifecycle. `Created` has never been played. */
  datatype Phase = Created | Playing | Paused | Stopped

  /** The observable state of one effect. */
  datatype PlayableState = PlayableState(phase: Phase, time: real, duration: real, released: bool)

  /** `EffectInfo`: the duration, the current time and the state of an effect. */
  datatype EffectInfo = EffectInfo(duration: real, currentTime: real, state: Phase)

  /** A newly created effect of the given total duration. */
  function Fresh(duration: real): (s: PlayableState)
    ensures s.phase != Playing && s.time == 0.0 && !s.released && s.duration == duration
  {
    PlayableState(Created, 0.0, duration, false)
  }

  /** What every effect keeps: a non-negative duration and time, and a time
      within the duration while the effect is playing or paused. */
  predicate Consistent(s: PlayableState)
  {
    && s.duration >= 0.0 && s.time >= 0.0
    && (s.phase == Playing || s.phase == Paused ==> s.time <= s.duration)
  }

  /** `Play`: starts an effect that has not started (or was stopped) from time 0,
      resumes a paused effect from the time it reached, and leaves a playing one alone. */
  function AfterPlay(s: PlayableState): (r: PlayableState)
    ensures r.phase == Playing && r.duration == s.duration && r.released == s.released
    ensures s.phase == Paused || s.phase == Playing ==> r.time == s.time
    ensures s.phase == Created || s.phase == Stopped ==> r.time == 0.0
  {
    match s.phase
    case Created => s.(phase := Playing, time := 0.0)
    case Stopped => s.(phase := Playing, time := 0.0)
    case Paused => s.(phase := Playing)
    case Playing => s
  }

  /** `Pause`: only a playing effect is affected; it pauses at the time it reached. */
  function AfterPause(s: PlayableState): (r: PlayableState)
    ensures s.phase == Playing ==> r == s.(phase := Paused)
    ensures s.phase != Playing ==> r == s
  {
    if s.phase == Playing then s.(phase := Paused) else s
  }

  /** `Stop`: a playing or paused effect stops; the time it reached is kept. */
  function AfterStop(s: PlayableState): (r: PlayableState)
    ensures r.phase != Playing && r.time == s.time && r.duration == s.duration && r.released == s.released
    ensures s.phase == Playing || s.phase == Paused ==> r.phase == Stopped
    ensures s.phase == Created || s.phase == Stopped ==> r == s
  {
    if s.phase == Playing || s.phase == Paused then s.(phase := Stopped) else s
  }

  /** `Update(dt)`: a playing effect advances by `dt` and stops once its time
      passes the duration; an effect that is not playing does not change. */
  function AfterUpdate(s: PlayableState, dt: real): (r: PlayableState)
    ensures s.phase != Playing ==> r == s
    ensures s.phase == Playing ==> r.time == s.time + dt
    ensures s.phase == Playing ==> (r.phase == Playing <==> s.time + dt <= s.duration)
    ensures r.duration == s.duration && r.released == s.released
  {
    if s.phase != Playing then s
    else if s.time + dt > s.duration then s.(phase := Stopped, time := s.time + dt)
    else s.(time := s.time + dt)
  }

  /** `Release`: marks the effect for removal by its owner. */
  function AfterRelease(s: PlayableState): (r: PlayableState)
    ensures r.released && r.phase == s.phase && r.time == s.time && r.duration == s.duration
  {
    s.(released := true)
  }

  /** `NS::Playable::Restart`, whose body is not part of this model: taken to
      mean a stop followed by a play, so the effect plays again from time 0. */
  function AfterRestart(s: PlayableState): (r: PlayableState)
    ensures r.phase == Playing && r.time == 0.0 && r.duration == s.duration && r.released == s.released
  {
    AfterPlay(AfterStop(s))
  }

  /** The playback commands an effect's owner forwards to it. */
  datatype Command = PlayCmd | PauseCmd | StopCmd | RestartCmd

  /** What a command does to one effect. */
  function Apply(cmd: Command, s: PlayableState): PlayableState
  {
    match cmd
    case PlayCmd => AfterPlay(s)
    case PauseCmd => AfterPause(s)
    case StopCmd => AfterStop(s)
    case RestartCmd => AfterRestart(s)
  }

  /** `GetInfo` of an effect in a given state. */
  function InfoOf(s: PlayableState): (info: EffectInfo)
    ensures info.duration == s.duration && info.currentTime == s.time
    ensures info.state == Playing <==> s.phase == Playing
  {
    EffectInfo(s.duration, s.time, s.phase)
  }

  /** Every operation keeps an effect consistent, given a non-negative time step. */
  lemma OperationsKeepConsistent(s: PlayableState, dt: real)
    requires Consistent(s) && dt >= 0.0
    ensures Consistent(AfterPlay(s)) && Consistent(AfterPause(s)) && Consistent(AfterStop(s))
    ensures Consistent(AfterUpdate(s, dt)) && Consistent(AfterRelease(s)) && Consistent(AfterRestart(s))
  {
  }

  /** Pausing and then resuming restores the effect exactly. */
  lemma PauseThenPlayRestores(s: PlayableState)
    requires s.phase == Playing
    ensures AfterPlay(AfterPause(s)) == s
  {
  }

  /** Play, update by `d/2`, pause, update by `10*d`, play, update by `d/2`:
      the effect is playing at time `d`, because the paused update was not counted. */
  lemma PausedTimeIsNotCounted(d: real)
    requires d > 0.0
    ensures
      var s := AfterUpdate(AfterPlay(AfterUpdate(AfterPause(AfterUpdate(AfterPlay(Fresh(d)), d / 2.0)), 10.0 * d)), d / 2.0);
      s.phase == Playing && s.time == d
  {
  }

  /** Played and updated past its duration, an effect is no longer playing and
      reports the whole elapsed time. */
  lemma RunsPastDuration(d: real, dt: real)
    requires d >= 0.0 && dt > 0.0
    ensures var s := AfterUpdate(AfterPlay(Fresh(d)), d + dt);
      s.phase != Playing && s.time == d + dt
  {
  }

  /** One effect behind the `IPlayable` interface. Mutators change its state
      as the `After*` functions say; queries read it. */
  class PlayableEffect {
    var phase: Phase
    var time: real
    var released: bool
    const duration: real

    /** The effect's state as a value. */
    function Abstract(): PlayableState
      reads this
    {
      PlayableState(phase, time, duration, released)
    }

    constructor (duration: real)
      ensures Abstract() == Fresh(duration)
    {
      this.duration := duration;
      phase := Created;
      time := 0.0;
      released := false;
    }

    method Play()
      modifies this
      ensures Abstract() == AfterPlay(old(Abstract()))
    {
      if phase == Created || phase == Stopped {
        time := 0.0;
      }
      phase := Playing;
    }

    method Pause()
      modifies this
      ensures Abstract() == AfterPause(old(Abstract()))
    {
      if phase == Playing {
        phase := Paused;
      }
    }

    method Stop()
      modifies this
      ensures Abstract() == AfterStop(old(Abstract()))
    {
      if phase == Playing || phase == Paused {
        phase := Stopped;
      }
    }

    method Release()
      modifies this
      ensures Abstract() == AfterRelease(old(Abstract()))
    {
      released := true;
    }

    method Update(dt: real)
      modifies this
      ensures Abstract() == AfterUpdate(old(Abstract()), dt)
    {
      if phase == Playing {
        time := time + dt;
        if time > duration {
          phase := Stopped;
        }
      }
    }

    /** Forwards one playback command; `RestartCmd` is `Stop` then `Play`. */
    method Perform(cmd: Command)
      modifies this
      ensures Abstract() == Apply(cmd, old(Abstract()))
    {
      match cmd
      case PlayCmd => Play();
      case PauseCmd => Pause();
      case StopCmd => Stop();
      case RestartCmd => Stop(); Play();
    }

    /** `IsPlaying`: true only while the effect is playing. */
    function IsPlaying(): (playing: bool)
      reads this
      ensures playing <==> Abstract().phase == Playing
    {
      phase == Playing
    }

    /** `IsReleased`: whether `Release` has been called. */
    function IsReleased(): (isReleased: bool)
      reads this
      ensures isReleased <==> Abstract().released
    {
      released
    }

    /** `CurrentTime`: the playback time reached, in seconds. */
    function CurrentTime(): (t: real)
      reads this
      ensures t == Abstract().time
    {
      time
    }

    /** `GetTotalDuration`: the effect's length, in seconds. */
    function GetTotalDuration(): (d: real)
      reads this
      ensures d == Abstract().duration
    {
      duration
    }

    /** `GetInfo` agrees with the individual queries. */
    function GetInfo(): (info: EffectInfo)
      reads this
      ensures info.duration == GetTotalDuration() && info.currentTime == CurrentTime()
      ensures info.state == Playing <==> IsPlaying()
    {
      InfoOf(Abstract())
    }
  }
}
