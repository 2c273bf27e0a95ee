/** The engine (NSLoader/Engine.cpp): it hands out haptic handles, routes
    playback and engine commands to the effect player, creates effects from
    event lists, reports the connection status from the suits information,
    and runs the player's time step.

    The messenger is not part of this model: what the engine reads from it
    (the suits information and the current time) comes in as parameters, and
    what it writes to it is recorded in the lists `driverCommands` and
    `hapticsWritten`. The priority model, whose output the time step
    forwards, is not part of this model either; its output is a parameter. */
module Engine {
  import opened Outcomes
  import opened Playable
  import opened HapticsPlayer
  import HardwareDriver

  /** The engine-wide commands a client sends; `OtherEngineCommand` is any
      value outside the five named ones. */
  datatype EngineCommandKind = ResumeAll | PauseAll | DestroyAll | EnableTracking | DisableTracking | OtherEngineCommand(code: int)

  /** The commands the engine writes for the driver service. */
  datatype DriverCommand = EnableTrackingCommand | DisableTrackingCommand

  /** An event list as the player sees it: the events themselves are read
      only by `PlayableEffect`, which is not part of this model; what the
      player keeps of them is the effect's total duration. */
  datatype EventList = EventList(totalDuration: real)

  /** What `Poll` writes: whether the service and a suit are connected (0 or 1). */
  datatype SystemStatus = SystemStatus(connectedToService: int, connectedToSuit: int)

  /** The connection status of one suit slot; only `Connected` counts. */
  datatype SuitStatus = Connected | NotConnected

  /** The suits information the messenger reads: when it was written, and for
      each of the four suit slots whether a suit was found and its status. */
  datatype SuitsInfo = SuitsInfo(timestamp: int, suitsFound: seq<bool>, statuses: seq<SuitStatus>)

  /** The number of suit slots. */
  const SuitSlots := 4

  /** Information older than this many seconds means the service is gone. */
  const StaleAfter := 1

  /** The length of the player's time step, in milliseconds. */
  const DefaultIntervalMs := 5

  /** Some found suit among the slots is connected. */
  predicate SomeSuitConnected(info: SuitsInfo)
    requires |info.suitsFound| >= SuitSlots && |info.statuses| >= SuitSlots
  {
    exists i :: 0 <= i < SuitSlots && info.suitsFound[i] && info.statuses[i] == Connected
  }

  /** `Poll`: with no information the status is left alone; information more
      than a second old clears both flags; otherwise the service is connected
      and the suit flag is set exactly when some found suit is connected. The
      result is always true. */
  method Poll(response: Option<SuitsInfo>, now: int, status: SystemStatus) returns (ok: bool, out: SystemStatus)
    requires response.Some? ==> |response.value.suitsFound| >= SuitSlots && |response.value.statuses| >= SuitSlots
    ensures ok
    ensures response.None? ==> out == status
    ensures response.Some? && now - response.value.timestamp > StaleAfter ==> out == SystemStatus(0, 0)
    ensures response.Some? && now - response.value.timestamp <= StaleAfter ==>
      && out.connectedToService == 1
      && (out.connectedToSuit == 1 <==> SomeSuitConnected(response.value))
      && (out.connectedToSuit == 0 <==> !SomeSuitConnected(response.value))
  {
    out := status;
    if response.Some? {
      var suits := response.value;
      if now - suits.timestamp > StaleAfter {
        return true, SystemStatus(0, 0);
      }
      out := SystemStatus(1, 0);
      var i := 0;
      while i < SuitSlots
        invariant 0 <= i <= SuitSlots && out.connectedToService == 1
        invariant out.connectedToSuit == 0 || out.connectedToSuit == 1
        invariant out.connectedToSuit == 1 <==> exists k :: 0 <= k < i && suits.suitsFound[k] && suits.statuses[k] == Connected
      {
        if suits.suitsFound[i] && suits.statuses[i] == Connected {
          out := out.(connectedToSuit := 1);
        }
        i := i + 1;
      }
    }
    return true, out;
  }

  /** The `n`-th handle `GenHandle` returns: the counter starts at 0 and each
      call adds one, wrapping at 2^32 because nothing checks the bound. */
  function NthHandle(n: nat): (h: uint32)
    ensures n < U32_MODULUS ==> h as int == n
  {
    ToUint32(n)
  }

  /** Each call adds one to the last handle, modulo 2^32: the handle after the
      `n`-th is the `n + 1`-th. */
  lemma NthHandleStep(n: nat)
    ensures ToUint32(NthHandle(n) as int + 1) == NthHandle(n + 1)
  {
  }

  /** The first 2^32 - 1 handles are distinct and none of them is 0. */
  lemma HandlesDistinctUntilOverflow(i: nat, j: nat)
    requires 1 <= i < j < U32_MODULUS
    ensures NthHandle(i) != NthHandle(j) && NthHandle(i) != 0
  {
  }

  /** The 2^32-th handle wraps to 0, and the one after repeats the first. */
  lemma HandleOverflowRepeats()
    ensures NthHandle(U32_MODULUS) == 0 && NthHandle(U32_MODULUS + 1) == NthHandle(1)
  {
  }

  /** `HandleCommand` on the table: Pause, Play and Reset reach the player's
      `Pause`, `Play` and `Stop`; the raw value 3 releases the handle; any
      other value does nothing. */
  function HandleCommandTable(t: Table, h: Handle, c: HardwareDriver.PlaybackCommand): Table
  {
    match c
    case PauseCommand => Control(t, h, PauseCmd)
    case PlayCommand => Control(t, h, PlayCmd)
    case ResetCommand => Control(t, h, StopCmd)
    case OtherCommand(code) => if code == 3 then ReleaseHandle(t, h) else t
  }

  /** `EngineCommand` on the table: ResumeAll is `PlayAll`, PauseAll is
      `PauseAll`, DestroyAll is `ClearAll`; the rest leave the table. */
  function EngineCommandTable(t: Table, c: EngineCommandKind): Table
  {
    match c
    case ResumeAll => PlayAllTable(t)
    case PauseAll => PauseAllTable(t)
    case DestroyAll => ClearAllTable(t)
    case _ => t
  }

  /** What `EngineCommand` writes for the driver service. */
  function DriverCommandsFor(c: EngineCommandKind): seq<DriverCommand>
  {
    match c
    case EnableTracking => [EnableTrackingCommand]
    case DisableTracking => [DisableTrackingCommand]
    case _ => []
  }

  /** Reset stops the handle's effect, it does not release it: the handle
      still reaches the effect afterwards. */
  lemma ResetKeepsHandle(t: Table, h: Handle)
    requires TableValid(t) && Live(t, h)
    ensures var r := HandleCommandTable(t, h, HardwareDriver.ResetCommand);
      && Live(r, h) && r.effects[r.handles[h]] == AfterStop(t.effects[t.handles[h]])
  {
  }

  /** The release code forgets the handle, so later commands through it reach no effect. */
  lemma ReleaseCodeForgetsHandle(t: Table, h: Handle, c: HardwareDriver.PlaybackCommand)
    requires TableValid(t)
    ensures var r := HandleCommandTable(t, h, HardwareDriver.OtherCommand(3));
      && h !in r.handles && r.effects == t.effects
      && HandleCommandTable(r, h, c).effects == r.effects
  {
    var r := HandleCommandTable(t, h, HardwareDriver.OtherCommand(3));
    ReleaseForgetsHandle(t, h);
    ReleaseKeepsValid(t, h);
    match c
    case OtherCommand(code) =>
      if code == 3 {
        ReleaseForgetsHandle(r, h);
      }
    case _ =>
      ControlOfDeadHandle(r, h, PlayCmd);
  }

  /** Commands outside the handled ones leave the player as it is. */
  lemma OtherCommandsDoNothing(t: Table, h: Handle, code: int, e: int)
    requires code != 3
    ensures HandleCommandTable(t, h, HardwareDriver.OtherCommand(code)) == t
    ensures EngineCommandTable(t, OtherEngineCommand(e)) == t && DriverCommandsFor(OtherEngineCommand(e)) == []
  {
  }

  /** Pausing and then resuming the whole engine, with nothing frozen before,
      gives every effect back as it was. */
  lemma PauseAllThenResumeAll(t: Table)
    requires t.frozen == {}
    ensures EngineCommandTable(EngineCommandTable(t, PauseAll), ResumeAll).effects == t.effects
  {
    PauseAllThenPlayAll(t);
  }

  /** The time step in seconds for a step of `intervalMs` milliseconds. */
  function StepSeconds(intervalMs: nat): (dt: real)
    ensures dt >= 0.0 && (intervalMs > 0 ==> dt > 0.0)
  {
    intervalMs as real * (1.0 / 1000.0)
  }

  /** The default step is five thousandths of a second. */
  lemma DefaultStepIsFiveMilliseconds()
    ensures StepSeconds(DefaultIntervalMs) == 0.005
  {
  }

  class Engine {
    const player: Player
    /** The last handle handed out. */
    var currentHandleId: uint32
    /** How many handles have been generated so far. */
    ghost var generated: nat
    /** The length of a time step, in milliseconds. */
    var intervalMs: nat
    /** What was written for the driver service, oldest first. */
    var driverCommands: seq<DriverCommand>
    /** What was written for the hardware, oldest first. */
    var hapticsWritten: seq<HardwareDriver.EffectCommand>

    ghost predicate Valid()
      reads this, player
    {
      player.Valid() && currentHandleId == NthHandle(generated)
    }

    constructor ()
      ensures Valid() && fresh(player) && player.Abstract() == EmptyTable()
      ensures currentHandleId == 0 && generated == 0 && intervalMs == DefaultIntervalMs
      ensures driverCommands == [] && hapticsWritten == []
    {
      player := new Player();
      currentHandleId := 0;
      generated := 0;
      intervalMs := DefaultIntervalMs;
      driverCommands, hapticsWritten := [], [];
    }

    /** `GenHandle`: the next handle, one more than the last, with no bound
        check; the `n`-th call returns `NthHandle(n)`. */
    method GenHandle() returns (h: uint32)
      requires Valid()
      modifies this
      ensures Valid() && generated == old(generated) + 1 && h == NthHandle(generated)
      ensures h == ToUint32(old(currentHandleId) as int + 1) && currentHandleId == h
      ensures intervalMs == old(intervalMs) && driverCommands == old(driverCommands) && hapticsWritten == old(hapticsWritten)
    {
      NthHandleStep(generated);
      currentHandleId := ToUint32(currentHandleId as int + 1);
      generated := generated + 1;
      h := currentHandleId;
    }

    /** `HandleCommand`: route a playback command for one handle to the player. */
    method HandleCommand(handle: uint32, c: HardwareDriver.PlaybackCommand)
      requires Valid()
      modifies player
      ensures Valid() && player.Abstract() == HandleCommandTable(old(player.Abstract()), handle, c)
    {
      var h: Handle := handle;
      match c
      case PauseCommand => player.Pause(h);
      case PlayCommand => player.Play(h);
      case ResetCommand => player.Stop(h);
      case OtherCommand(code) =>
        if code == 3 {
          player.Release(h);
        }
    }

    /** `EngineCommand`: route an engine-wide command; always succeeds. */
    method EngineCommand(c: EngineCommandKind) returns (ok: bool)
      requires Valid()
      modifies this, player
      ensures ok && Valid() && player.Abstract() == EngineCommandTable(old(player.Abstract()), c)
      ensures driverCommands == old(driverCommands) + DriverCommandsFor(c)
      ensures currentHandleId == old(currentHandleId) && intervalMs == old(intervalMs) && hapticsWritten == old(hapticsWritten)
    {
      ok := true;
      match c
      case ResumeAll => player.PlayAll();
      case PauseAll => player.PauseAll();
      case DestroyAll => player.ClearAll();
      case EnableTracking => driverCommands := driverCommands + [EnableTrackingCommand];
      case DisableTracking => driverCommands := driverCommands + [DisableTrackingCommand];
      case OtherEngineCommand(_) =>
    }

    /** `CreateEffect(list, handle)`: -1 for a missing list, which creates
        nothing; otherwise the player creates the effect and the result is 1. */
    method CreateEffect(list: Option<EventList>, handle: uint32) returns (r: int)
      requires Valid()
      modifies player
      ensures Valid()
      ensures list.None? ==> r == -1 && player.Abstract() == old(player.Abstract())
      ensures list.Some? ==> r == 1 && player.Abstract() == HapticsPlayer.CreateEffect(old(player.Abstract()), handle, old(player.nextId), list.value.totalDuration)
    {
      if list.None? {
        return -1;
      }
      player.Create(handle, list.value.totalDuration);
      return 1;
    }

    /** `executeTimestep`: advance the player by one step of `intervalMs`
        milliseconds and forward, in order, the commands the priority model
        produced for that step. */
    method ExecuteTimestep(modelOutput: seq<HardwareDriver.EffectCommand>)
      requires Valid()
      modifies this, player
      ensures Valid() && player.Abstract() == UpdateTable(old(player.Abstract()), StepSeconds(intervalMs))
      ensures hapticsWritten == old(hapticsWritten) + modelOutput
      ensures currentHandleId == old(currentHandleId) && intervalMs == old(intervalMs) && driverCommands == old(driverCommands)
    {
      var dt := intervalMs as real * (1.0 / 1000.0);
      player.Update(dt);
      var i := 0;
      while i < |modelOutput|
        invariant 0 <= i <= |modelOutput| && hapticsWritten == old(hapticsWritten) + modelOutput[..i]
        invariant Valid() && player.Abstract() == UpdateTable(old(player.Abstract()), StepSeconds(intervalMs))
        invariant currentHandleId == old(currentHandleId) && intervalMs == old(intervalMs) && driverCommands == old(driverCommands)
        invariant generated == old(generated)
      {
        hapticsWritten := hapticsWritten + [modelOutput[i]];
        i := i + 1;
      }
    }
  }
}
