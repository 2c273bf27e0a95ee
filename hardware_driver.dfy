/** The per-zone hardware driver (src/HardwareDriver.cpp): the retained basic
    haptic event, which pushes effect commands for the hardware and keeps its
    own elapsed time, and a zone's list of such events, keyed by the id of the
    effect that created them.

    Each event's command queue is modelled as the event's own `commands`
    list. In the source the queue an event captures in `createRetained` is a
    local of that function, so the commands pushed later have no reader; the
    model keeps them so that what `Begin` pushes can be stated. */
module HardwareDriver {
  import opened Outcomes

  /** The kind of an `EffectCommand` for the hardware. */
  datatype CommandKind = Play | PlayContinuous | Halt

  /** An `EffectCommand`: the area it plays on, its kind, the effect family
      code and the strength. */
  datatype EffectCommand = EffectCommand(area: uint32, command: CommandKind, effect: uint32, strength: real)

  /** The playback commands a client sends; `OtherCommand` is any value
      outside the three named ones. */
  datatype PlaybackCommand = PlayCommand | PauseCommand | ResetCommand | OtherCommand(code: int)

  /** The state of one retained event (`MyBasicHapticEvent`). */
  datatype Retained = Retained(area: uint32, duration: real, strength: real, effect: uint32,
                               time: real, playing: bool, commands: seq<EffectCommand>)

  /** A new event: time 0, playing, nothing pushed yet. */
  function NewRetained(area: uint32, duration: real, strength: real, effect: uint32): (r: Retained)
    ensures r.time == 0.0 && r.playing && r.commands == []
    ensures r.area == area && r.duration == duration && r.strength == strength && r.effect == effect
  {
    Retained(area, duration, strength, effect, 0.0, true, [])
  }

  /** The command `Begin` builds: a one-shot play for a zero duration, a
      continuous play otherwise, with the event's area, effect and strength. */
  function StartCommand(r: Retained): (c: EffectCommand)
    ensures c.area == r.area && c.effect == r.effect && c.strength == r.strength
    ensures c.command == Play <==> r.duration == 0.0
    ensures c.command != Halt
  {
    EffectCommand(r.area, if r.duration == 0.0 then Play else PlayContinuous, r.effect, r.strength)
  }

  /** `Begin`: push the start command. */
  function Begun(r: Retained): Retained
  {
    r.(commands := r.commands + [StartCommand(r)])
  }

  /** `Pause`: stop counting time. The halt command it builds is never pushed. */
  function Paused(r: Retained): Retained
  {
    r.(playing := false)
  }

  /** `Resume`: the same as `Begin`; the playing flag is left as it is. */
  function Resumed(r: Retained): Retained
  {
    Begun(r)
  }

  /** `Update(dt)`: time advances only while the event is playing. */
  function Updated(r: Retained, dt: real): Retained
  {
    if r.playing then r.(time := r.time + dt) else r
  }

  /** `Finished`: the time has reached the duration. */
  predicate Finished(r: Retained)
  {
    r.time >= r.duration
  }

  /** `n` consecutive updates by `dt`. */
  function UpdatedTimes(r: Retained, dt: real, n: nat): Retained
  {
    if n == 0 then r else Updated(UpdatedTimes(r, dt, n - 1), dt)
  }

  // ---- Properties of one event

  /** `Begin` (and so `Resume`) pushes exactly one command, the start command,
      after the ones already pushed, and changes nothing else. */
  lemma BeginPushesOneCommand(r: Retained)
    ensures var b := Begun(r);
      && |b.commands| == |r.commands| + 1 && b.commands[..|r.commands|] == r.commands
      && b.commands[|r.commands|] == StartCommand(r)
      && b.(commands := r.commands) == r
    ensures Resumed(r) == Begun(r)
  {
  }

  /** `Pause` pushes nothing and leaves the time; only the playing flag drops. */
  lemma PausePushesNothing(r: Retained)
    ensures Paused(r).commands == r.commands && Paused(r).time == r.time && !Paused(r).playing
    ensures Paused(r).(playing := r.playing) == r
  {
  }

  /** `Update` adds `dt` to the time exactly when the event is playing. */
  lemma UpdateCountsOnlyWhilePlaying(r: Retained, dt: real)
    requires dt != 0.0
    ensures Updated(r, dt).time == r.time + dt <==> r.playing
    ensures !r.playing ==> Updated(r, dt) == r
  {
  }

  /** With non-negative steps, a finished event stays finished. */
  lemma FinishedIsStable(r: Retained, dt: real)
    requires dt >= 0.0 && Finished(r)
    ensures Finished(Updated(r, dt))
  {
  }

  /** Once paused, an event stays exactly as it is under any number of
      updates, even after a `Resume`: `Resume` does not set the playing flag
      again, so an unfinished event that was paused never finishes. */
  lemma {:induction false} PausedEventNeverAdvances(r: Retained, dt: real, n: nat)
    ensures UpdatedTimes(Resumed(Paused(r)), dt, n) == Resumed(Paused(r))
    ensures !Finished(r) ==> !Finished(UpdatedTimes(Resumed(Paused(r)), dt, n))
  {
    if n > 0 {
      PausedEventNeverAdvances(r, dt, n - 1);
    }
  }

  /** While an event plays, `n` updates by `dt` add exactly `n * dt` to its time. */
  lemma {:induction false} PlayingEventAdvances(r: Retained, dt: real, n: nat)
    requires r.playing
    ensures UpdatedTimes(r, dt, n) == r.(time := r.time + n as real * dt)
  {
    if n > 0 {
      PlayingEventAdvances(r, dt, n - 1);
    }
  }

  /** `MyBasicHapticEvent`: one retained event, updated in place. */
  class RetainedEvent {
    const area: uint32
    const duration: real
    const strength: real
    const effect: uint32
    var time: real
    var playing: bool
    /** The commands pushed so far, oldest first. */
    var commands: seq<EffectCommand>

    function Abstract(): Retained
      reads this
    {
      Retained(area, duration, strength, effect, time, playing, commands)
    }

    constructor (area: uint32, duration: real, strength: real, effect: uint32)
      ensures Abstract() == NewRetained(area, duration, strength, effect)
    {
      this.area, this.duration, this.strength, this.effect := area, duration, strength, effect;
      time, playing, commands := 0.0, true, [];
    }

    method Begin()
      modifies this
      ensures Abstract() == Begun(old(Abstract()))
    {
      var kind := if duration == 0.0 then Play else PlayContinuous;
      commands := commands + [EffectCommand(area, kind, effect, strength)];
    }

    method Pause()
      modifies this
      ensures Abstract() == Paused(old(Abstract()))
    {
      playing := false;
    }

    method Resume()
      modifies this
      ensures Abstract() == Resumed(old(Abstract()))
    {
      Begin();
    }

    method Update(dt: real)
      modifies this
      ensures Abstract() == Updated(old(Abstract()), dt)
    {
      if playing {
        time := time + dt;
      }
    }

    function IsFinished(): (finished: bool)
      reads this
      ensures finished <==> Finished(Abstract())
    {
      time >= duration
    }
  }

  // ---- The zone

  /** An effect id (a UUID in the source). */
  type Uuid = nat

  /** `GeneratedEvent`: a retained event and the id of the effect that made it. */
  datatype Generated = Generated(handle: Uuid, event: Retained)

  /** The request `createRetained` turns into a retained event. */
  datatype BasicEvent = BasicEvent(area: uint32, duration: real, strength: real, requestedEffectFamily: uint32)

  /** The position of the first event of `handle`, or `|events|` when there is none. */
  function FindEvent(events: seq<Generated>, handle: Uuid): (i: nat)
    ensures i <= |events|
    ensures forall k :: 0 <= k < i ==> events[k].handle != handle
    ensures i < |events| ==> events[i].handle == handle
    decreases |events|
  {
    if |events| == 0 then 0
    else if events[0].handle == handle then 0
    else 1 + FindEvent(events[1..], handle)
  }

  /** `createRetained`: the new event goes to the back. */
  function ZoneCreate(events: seq<Generated>, handle: Uuid, e: BasicEvent): seq<Generated>
  {
    events + [Generated(handle, NewRetained(e.area, e.duration, e.strength, e.requestedEffectFamily))]
  }

  /** `controlRetained`: the first event of `handle` resumes on Play, pauses
      on Pause, and is paused and removed on Reset; anything else, and any
      handle without an event, leaves the zone as it is. */
  function ZoneControl(events: seq<Generated>, handle: Uuid, cmd: PlaybackCommand): seq<Generated>
  {
    var i := FindEvent(events, handle);
    if i == |events| then events
    else match cmd
      case PlayCommand => events[i := events[i].(event := Resumed(events[i].event))]
      case PauseCommand => events[i := events[i].(event := Paused(events[i].event))]
      case ResetCommand => events[..i] + events[i + 1..]
      case OtherCommand(_) => events
  }

  /** The zone's `update`: every event advanced by `dt`. */
  function ZoneUpdate(events: seq<Generated>, dt: real): (r: seq<Generated>)
    ensures |r| == |events|
  {
    seq(|events|, k requires 0 <= k < |events| => events[k].(event := Updated(events[k].event, dt)))
  }

  /** The active event: the one at the back. */
  function Active(events: seq<Generated>): Generated
    requires |events| > 0
  {
    events[|events| - 1]
  }

  // ---- Properties of the zone

  /** A created event is the active one, starts at time 0 playing, and every
      earlier event keeps its place. */
  lemma CreatedEventIsActive(events: seq<Generated>, handle: Uuid, e: BasicEvent)
    ensures var r := ZoneCreate(events, handle, e);
      && |r| == |events| + 1 && r[..|events|] == events
      && Active(r).handle == handle && Active(r).event.time == 0.0 && Active(r).event.playing
      && Active(r).event.commands == []
  {
    assert ZoneCreate(events, handle, e)[..|events|] == events;
  }

  /** A command for a handle with no event changes nothing. */
  lemma ControlOfUnknownHandle(events: seq<Generated>, handle: Uuid, cmd: PlaybackCommand)
    requires forall k :: 0 <= k < |events| ==> events[k].handle != handle
    ensures ZoneControl(events, handle, cmd) == events
  {
  }

  /** Play and Pause change only the first event of the handle, and only as
      `Resume` and `Pause` do; the other events keep their places. */
  lemma ControlChangesOneEvent(events: seq<Generated>, handle: Uuid, cmd: PlaybackCommand)
    requires cmd == PlayCommand || cmd == PauseCommand
    requires FindEvent(events, handle) < |events|
    ensures var i, r := FindEvent(events, handle), ZoneControl(events, handle, cmd);
      && |r| == |events| && r[i].handle == handle
      && r[i].event == (if cmd == PlayCommand then Resumed(events[i].event) else Paused(events[i].event))
      && forall k :: 0 <= k < |events| && k != i ==> r[k] == events[k]
  {
  }

  /** Reset removes exactly the first event of the handle, keeping the order of the rest. */
  lemma ResetRemovesOneEvent(events: seq<Generated>, handle: Uuid)
    requires FindEvent(events, handle) < |events|
    ensures var i, r := FindEvent(events, handle), ZoneControl(events, handle, ResetCommand);
      && |r| == |events| - 1
      && (forall k :: 0 <= k < i ==> r[k] == events[k])
      && (forall k :: i <= k < |r| ==> r[k] == events[k + 1])
  {
  }

  /** Updating the zone advances every event as `Update` does and keeps the handles in order. */
  lemma UpdateZoneAdvancesEach(events: seq<Generated>, dt: real)
    ensures var r := ZoneUpdate(events, dt);
      forall k :: 0 <= k < |events| ==> r[k].handle == events[k].handle && r[k].event == Updated(events[k].event, dt)
  {
  }

  /** A zone driver: its events, oldest first. */
  class ZoneDriver {
    var events: seq<Generated>

    constructor ()
      ensures events == []
    {
      events := [];
    }

    /** The search `controlRetained` starts with. */
    method Find(handle: Uuid) returns (i: nat)
      ensures i == FindEvent(events, handle)
    {
      i := 0;
      while i < |events| && events[i].handle != handle
        invariant i <= |events| && forall k :: 0 <= k < i ==> events[k].handle != handle
      {
        i := i + 1;
      }
    }

    method CreateRetained(handle: Uuid, e: BasicEvent)
      modifies this
      ensures events == ZoneCreate(old(events), handle, e)
    {
      events := events + [Generated(handle, NewRetained(e.area, e.duration, e.strength, e.requestedEffectFamily))];
    }

    method ControlRetained(handle: Uuid, cmd: PlaybackCommand)
      modifies this
      ensures events == ZoneControl(old(events), handle, cmd)
    {
      var i := Find(handle);
      if i == |events| {
        return;
      }
      match cmd
      case PlayCommand =>
        events := events[i := events[i].(event := Resumed(events[i].event))];
      case PauseCommand =>
        events := events[i := events[i].(event := Paused(events[i].event))];
      case ResetCommand =>
        events := events[i := events[i].(event := Paused(events[i].event))];
        events := events[..i] + events[i + 1..];
      case OtherCommand(_) =>
    }

    /** The zone's `update`: one pass over the events. */
    method Update(dt: real)
      modifies this
      ensures events == ZoneUpdate(old(events), dt)
    {
      var k := 0;
      while k < |events|
        invariant 0 <= k <= |events| == |old(events)|
        invariant forall j :: 0 <= j < |events| ==> events[j] == if j < k then ZoneUpdate(old(events), dt)[j] else old(events)[j]
      {
        events := events[k := events[k].(event := Updated(events[k].event, dt))];
        k := k + 1;
      }
    }
  }
}
