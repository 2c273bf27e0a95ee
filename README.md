# Hardlight haptics plugin core, modelled in Dafny

This project models the core of the Hardlight VR haptics plugin, which drives a haptic
suit. The core has seven parts:

- **Enum translator.** The bidirectional name tables for body locations, effects, sides,
  JSON locations, area flags, effect families and regions.
- **Haptic argument records.** Their `hash_combine` fold and their `ToString`.
- **Dependency resolver.** It packs a loaded sequence, pattern or experience asset, with
  all of its children, into one node tree.
- **`IPlayable` contract.** The life cycle every playable effect follows: play, pause,
  stop, release and update.
- **Haptics player.** It maps client handles to internal effects, keeps the released and
  frozen lists, and reaps released effects once they have stopped. Its pause-all and
  play-all operations freeze and thaw effects.
- **Engine.** It generates handles and dispatches playback and engine commands to the
  player. It also polls the suit status and runs the periodic timestep.
- **Hardware zone driver and events.** A retained haptic event with its command queue,
  and a zone driver that holds the events and controls them by handle. The discrete haptic
  event parses and validates its parameters, and the basic suit event has its string-keyed
  setters.

The modules are:

| file | module | form |
|---|---|---|
| `outcomes.dfy` | `Outcomes` | Option/Result wrappers, 32-bit unsigned arithmetic |
| `enum_translator.dfy` | `EnumTranslator` | pure functions and round-trip lemmas |
| `haptic_args.dfy` | `HapticArgs` | pure functions and lemmas |
| `dependency_resolver.dfy` | `DependencyResolver` | pure functions over an asset store |
| `playable.dfy` | `Playable` | state functions plus the `PlayableEffect` class |
| `haptics_player.dfy` | `HapticsPlayer` | table functions plus the `Player` class and its loop helpers |
| `engine.dfy` | `Engine` | command tables plus the `Engine` class |
| `hardware_driver.dfy` | `HardwareDriver` | `RetainedEvent` and `ZoneDriver` classes against state functions |
| `discrete_haptic_event.dfy` | `DiscreteHapticEvent` | parameter map, validators, and the event class |
| `suit_event.dfy` | `SuitEvent` | the `BasicHapticEvent` class against pure setters |

Each stateful class exposes an `Abstract()` view of its fields. Every method is proved to
leave `Abstract()` equal to a pure function of the old view. The properties that the code
and its tests promise are then proved as lemmas about those functions: round trips,
preserved invariants, the clean-up of released effects, and pause-all followed by
play-all.

The C++ `float` values are modelled as `real`. `uint32_t` is the `Outcomes.uint32`
newtype, and a conversion to it wraps modulo 2^32 (`Outcomes.ToUint32`). A `std::map::at`
or `bimap::at` lookup that would throw `std::out_of_range` is modelled as an `Option` or
`Result` failure.

## Model

| member | source | states |
|---|---|---|
| Outcomes.ToUint32 | NSLoader/SuitEvent.cpp:39-41 | the conversion of an int to uint32_t keeps values in range and adds 2^32 to negative values, the wrap-around of `Area = value` |
| EnumTranslator.LocationName | src/EnumTranslator.cpp:22-26 | the location name table; `LocationRoundTrip` proves it injective and inverted by `ToLocation` |
| EnumTranslator.EffectName | src/EnumTranslator.cpp:28-33 | the effect name table; `EffectRoundTrip` proves it injective and inverted by `ToEffect` |
| EnumTranslator.SideName | src/EnumTranslator.cpp:35-38 | the side name table; `SideRoundTrip` proves it inverted by `ToSide` |
| EnumTranslator.JsonLocationName | src/EnumTranslator.cpp:69-72 | the JSON location name table; `JsonLocationRoundTrip` proves it inverted by `ToJsonLocation` |
| EnumTranslator.AreaName | src/EnumTranslator.cpp:126-129 | the area flag name table; `AreaFlagRoundTrip` proves it inverted by `ToArea` |
| EnumTranslator.FamilyName | src/EnumTranslator.cpp:136-139 | the name of a family code, none for an unknown code (where `at` throws); `FamilyRoundTrip` proves it the exact inverse of `ToEffectFamily` |
| EnumTranslator.RegionName | src/EnumTranslator.cpp:146-149 | the region name of an area flag, none for a flag without a region; `RegionNamesAreSingleZones` characterises where it is defined |
| EnumTranslator.ToLocation | src/EnumTranslator.cpp:97-100 | a successful lookup of a location name returns the location whose name it is |
| EnumTranslator.ToLocationOr | src/EnumTranslator.cpp:88-95 | a known name yields the location with that name; an unknown name yields the default |
| EnumTranslator.LocationRoundTrip | src/EnumTranslator.cpp:359-378 | the location table is a bijection: looking up the name of every location gives that location back |
| EnumTranslator.ToEffect | src/EnumTranslator.cpp:50-53 | a successful lookup of an effect name returns the effect whose name it is |
| EnumTranslator.ToEffectOr | src/EnumTranslator.cpp:40-48 | a known effect name yields that effect; an unknown one yields the default |
| EnumTranslator.EffectRoundTrip | src/EnumTranslator.cpp:254-333 | all effect names are distinct: looking up the name of every effect gives that effect back |
| EnumTranslator.ToSide | src/EnumTranslator.cpp:55-58 | a successful side lookup returns the side with that name |
| EnumTranslator.ToSideOr | src/EnumTranslator.cpp:60-67 | a known side name yields that side; an unknown one yields the default |
| EnumTranslator.SideRoundTrip | src/EnumTranslator.cpp:335-343 | every side's name looks up to that side |
| EnumTranslator.ToJsonLocation | src/EnumTranslator.cpp:74-77 | a successful JSON location lookup returns the location with that name |
| EnumTranslator.ToJsonLocationOr | src/EnumTranslator.cpp:79-86 | a known JSON location name yields it; an unknown one yields the default |
| EnumTranslator.JsonLocationRoundTrip | src/EnumTranslator.cpp:345-357 | every JSON location's name looks up to that location |
| EnumTranslator.ToArea | src/EnumTranslator.cpp:121-124 | a successful area lookup returns the area flag with that name |
| EnumTranslator.ToAreaOr | src/EnumTranslator.cpp:113-119 | a known area name yields its flag; an unknown one yields the default |
| EnumTranslator.AreaFlagRoundTrip | src/EnumTranslator.cpp:155-187 | every area flag's name looks up to that flag |
| EnumTranslator.ToEffectFamily | src/EnumTranslator.cpp:131-134 | a family name that is found maps to a code whose name is that family name |
| EnumTranslator.FamilyRoundTrip | src/EnumTranslator.cpp:188-208 | a code names a family exactly when that family looks up to the code, in both directions (the reverse lookup at 136-139) |
| EnumTranslator.LocationToArea | src/EnumTranslator.cpp:210-229 | every location maps to the area flag of the same name, except that the upper back locations map to the back areas |
| EnumTranslator.RegionNamesAreSingleZones | src/EnumTranslator.cpp:231-251 | an area flag has a region name exactly when some location maps to it, i.e. the regions are the sixteen single zones |
| HapticArgs.HashCombineBase | src/Plugin/HapticArgs.h:5-12 | combining no values leaves the seed; combining one value applies the mixing step `seed ^ (h + 0x9e3779b9 + (seed << 6) + (seed >> 2))` once |
| HapticArgs.HashCombineAppend | src/Plugin/HapticArgs.h:7-12 | combining `a + b` equals combining `b` into the seed obtained from `a` |
| HapticArgs.HashCombineIsLeftFold | src/Plugin/HapticArgs.h:7-12 | the variadic recursion equals a left fold that mixes the last value last |
| HapticArgs.HashCombine | src/Plugin/HapticArgs.h:5-12 | the variadic `hash_combine` as a recursion over the list of values; its fold properties are `HashCombineBase`, `HashCombineAppend` and `HashCombineIsLeftFold` |
| HapticArgs.ToString | src/Plugin/HapticArgs.h:35-37 | every argument record prints as its name (also HapticArgs.h:50-52 and 63-65); `DependencyResolver.MessageNamesAsset` states what the error message makes of it |
| DependencyResolver.MessageNamesAsset | NSLoader/DependencyResolver.cpp:7-11 | the not-loaded error message starts with "Attempted to resolve " followed by the asset's name |
| DependencyResolver.ResolveSequence | NSLoader/DependencyResolver.cpp:27-33 | resolution succeeds exactly when the sequence is loaded, and gives the loaded node with the requested area and strength; otherwise it fails naming the arguments |
| DependencyResolver.ResolvePatternChildren | NSLoader/DependencyResolver.cpp:41-45 | succeeds exactly when every child sequence is loaded; each result is the resolved sequence stamped with the child's time; a failure names the first missing child |
| DependencyResolver.ResolvePattern | NSLoader/DependencyResolver.cpp:35-49 | succeeds exactly when the pattern and all of its child sequences are loaded; the packed root is a Pattern with the root's effect and strength and one resolved child per child |
| DependencyResolver.ResolveExperienceChildren | NSLoader/DependencyResolver.cpp:56-60 | succeeds exactly when every child pattern resolves; each result is the resolved pattern stamped with the child's time; a failure carries the first failing child's error |
| DependencyResolver.ResolveExperience | NSLoader/DependencyResolver.cpp:51-62 | succeeds exactly when the experience and every child pattern resolve; the packed root is an Experience with one resolved pattern per child |
| DependencyResolver.Load | NSLoader/DependencyResolver.cpp:64-67 | returns true exactly when the loader accepts the file; an accepted file is registered under its name in the store of its kind, keeping every other name and every other kind; a rejected file leaves the store unchanged |
| DependencyResolver.LoadThenResolveSequence | NSLoader/DependencyResolver.cpp:27-33 | a sequence resolves, just after it was loaded successfully, to its definition with the requested area and strength |
| DependencyResolver.PatternSideIgnored | NSLoader/DependencyResolver.cpp:35-49 | resolving a pattern does not depend on the side argument |
| DependencyResolver.ExperienceSideIgnored | NSLoader/DependencyResolver.cpp:51-62 | resolving an experience does not depend on the side argument, because its children are resolved with `NotSpecified` |
| DependencyResolver.WarningScenario | NSLoader/DependencyResolver.cpp:51-62 | a two-pattern experience resolves to two Pattern children with their own times, each holding the sequence with the pattern's area and strength |
| Playable.Fresh | src/Plugin/test/test_main.cpp:79-87 | a newly created effect is not playing, is at time 0 and is not released |
| Playable.AfterPlay | src/Plugin/IPlayable.h:15-16 | play starts an effect that has not started, from time 0, and resumes a paused one from its current time |
| Playable.AfterPause | src/Plugin/IPlayable.h:21-22 | pause only affects a playing effect, which becomes paused at the same time |
| Playable.AfterStop | src/Plugin/IPlayable.h:18-19 | stop makes a playing or paused effect not playing; it keeps the time, as the tests at test_main.cpp:104-116 observe |
| Playable.AfterUpdate | src/Plugin/IPlayable.h:28-29 | update advances only a playing effect, by dt, and it stops playing once its time exceeds the duration |
| Playable.AfterRelease | src/Plugin/IPlayable.h:24-25 | release marks the effect released and changes nothing else |
| Playable.AfterRestart | NSLoader/HapticsPlayer.cpp:40-47 | restart, which calls `NS::Playable::Restart` (whose body is not part of this model), is taken as stop then play: the effect ends up playing from time 0 with its duration and released flag kept |
| Playable.Apply | NSLoader/HapticsPlayer.cpp:22-56 | the transition a forwarded playback command performs; `HapticsPlayer.ControlOfLiveHandle` states its effect on the player |
| Playable.InfoOf | src/Plugin/IPlayable.h:34-35 | the info of a state reports its duration and time, and the state Playing exactly when the effect plays |
| Playable.OperationsKeepConsistent | src/Plugin/IPlayable.h:15-29 | every operation, given a non-negative dt, keeps time and duration non-negative and keeps a playing or paused effect within its duration |
| Playable.PauseThenPlayRestores | src/Plugin/test/test_main.cpp:118-133 | pausing and then playing a playing effect restores it exactly |
| Playable.PausedTimeIsNotCounted | src/Plugin/test/test_main.cpp:118-133 | the time that passes while an effect is paused does not count towards its playback |
| Playable.RunsPastDuration | src/Plugin/test/test_main.cpp:135-147 | an effect stops playing once an update carries it past its duration |
| Playable.PlayableEffect.constructor | src/Plugin/test/test_main.cpp:79-87 | a new effect starts in the fresh state |
| Playable.PlayableEffect.Play | src/Plugin/IPlayable.h:15-16 | the new state is the play transition of the old one |
| Playable.PlayableEffect.Pause | src/Plugin/IPlayable.h:21-22 | the new state is the pause transition of the old one |
| Playable.PlayableEffect.Stop | src/Plugin/IPlayable.h:18-19 | the new state is the stop transition of the old one |
| Playable.PlayableEffect.Release | src/Plugin/IPlayable.h:24-25 | the new state is the release transition of the old one |
| Playable.PlayableEffect.Update | src/Plugin/IPlayable.h:28-29 | the new state is the update transition of the old one |
| Playable.PlayableEffect.Perform | NSLoader/HapticsPlayer.cpp:22-56 | applying a playback command performs that command's transition |
| Playable.PlayableEffect.GetInfo | src/Plugin/IPlayable.h:5-9 | the info reports the total duration and current time, and reports the state as Playing exactly when the effect is playing |
| Playable.PlayableEffect.IsPlaying | src/Plugin/IPlayable.h:43-44 | true exactly when the effect is playing |
| Playable.PlayableEffect.IsReleased | src/Plugin/IPlayable.h:31-32 | true exactly when the effect has been released |
| Playable.PlayableEffect.CurrentTime | src/Plugin/IPlayable.h:40-41 | the playback time reached |
| Playable.PlayableEffect.GetTotalDuration | src/Plugin/IPlayable.h:37-38 | the effect's total length |
| HapticsPlayer.EmptyTable | NSLoader/HapticsPlayer.cpp:10-16 | a new player's table satisfies the player invariant |
| HapticsPlayer.Touch | NSLoader/HapticsPlayer.cpp:205-207 | indexing the handle map with an unknown handle inserts it with the nil id and changes nothing else; a known handle leaves the table unchanged |
| HapticsPlayer.Control | NSLoader/HapticsPlayer.cpp:22-56 | play, pause, restart or stop through a handle; `ControlOfLiveHandle`, `ControlOfDeadHandle` and `ControlKeepsValid` state what it does |
| HapticsPlayer.ReleaseHandle | NSLoader/HapticsPlayer.cpp:59-76 | release of a handle; `ReleaseForgetsHandle`, `ReleasedHandleIsDead` and `ReleaseKeepsValid` state what it does |
| HapticsPlayer.CreateEffect | NSLoader/HapticsPlayer.cpp:78-96 | the corrected create; `CreateNewEffect`, `CreateReplacesEffect` and `CreateKeepsValid` state what it does |
| HapticsPlayer.UpdateTable | NSLoader/HapticsPlayer.cpp:123-152 | advance, mark and sweep on the table; `UpdateReapsStoppedReleased` and `UpdateKeepsValid` state what it does |
| HapticsPlayer.PauseAllTable | NSLoader/HapticsPlayer.cpp:173-186 | pause-all on the table; `PauseAllFreezesPlaying` and `BulkOperationsKeepValid` state what it does |
| HapticsPlayer.PlayAllTable | NSLoader/HapticsPlayer.cpp:155-170 | play-all on the table; `PauseAllThenPlayAll` and `BulkOperationsKeepValid` state what it does |
| HapticsPlayer.ClearAllTable | NSLoader/HapticsPlayer.cpp:188-198 | clear-all on the table; `ClearAllEmpties` and `BulkOperationsKeepValid` state what it does |
| HapticsPlayer.CreateAsWritten | NSLoader/HapticsPlayer.cpp:82-85 | the create code as written crashes exactly when the handle is mapped but has no effect |
| HapticsPlayer.StillPlayingMembers | NSLoader/HapticsPlayer.cpp:146-149 | the sweep keeps exactly the released ids whose effect has not expired, and keeps them distinct |
| HapticsPlayer.ControlKeepsValid | NSLoader/HapticsPlayer.cpp:22-56 | play, pause, restart and stop preserve the player invariant |
| HapticsPlayer.ReleaseKeepsValid | NSLoader/HapticsPlayer.cpp:59-76 | release preserves the player invariant |
| HapticsPlayer.CreateKeepsValid | NSLoader/HapticsPlayer.cpp:78-96 | create, given an unused new id, preserves the player invariant |
| HapticsPlayer.UpdateKeepsValid | NSLoader/HapticsPlayer.cpp:123-152 | update preserves the player invariant |
| HapticsPlayer.BulkOperationsKeepValid | NSLoader/HapticsPlayer.cpp:155-198 | pause-all, play-all and clear-all preserve the player invariant |
| HapticsPlayer.CreateNewEffect | NSLoader/HapticsPlayer.cpp:88-94 | creating under a handle without an effect maps the handle to the new id and adds one fresh effect; every other effect is unchanged |
| HapticsPlayer.CreateReplacesEffect | NSLoader/HapticsPlayer.cpp:82-87 | creating under a live handle replaces its effect with a fresh one under the same id; the handles and the other effects are unchanged |
| HapticsPlayer.ControlOfDeadHandle | NSLoader/HapticsPlayer.cpp:26-28 | a command on a handle without an effect changes no effect (and only registers the handle) |
| HapticsPlayer.ControlOfLiveHandle | NSLoader/HapticsPlayer.cpp:22-56 | a command on a live handle applies the command's transition to its effect and to no other effect |
| HapticsPlayer.ReleaseForgetsHandle | NSLoader/HapticsPlayer.cpp:59-76 | release forgets the handle, keeps every effect, and queues the effect's id as released exactly when the handle was live |
| HapticsPlayer.ReleasedHandleIsDead | src/Plugin/test/test_main.cpp:181-198 | after release, a command on that handle changes no effect |
| HapticsPlayer.UpdateReapsStoppedReleased | NSLoader/HapticsPlayer.cpp:123-152 | after update an effect survives exactly when it is not a released effect that has stopped playing; survivors are advanced by dt; unreleased effects always survive; the released list keeps exactly the still-playing ids |
| HapticsPlayer.PauseAllThenPlayAll | NSLoader/HapticsPlayer.cpp:155-186 | pause-all followed by play-all restores every effect and leaves nothing frozen and the player unpaused |
| HapticsPlayer.PauseAllFreezesPlaying | NSLoader/HapticsPlayer.cpp:173-186 | after pause-all no effect is playing, and the newly frozen ids are exactly the effects that were playing |
| HapticsPlayer.ClearAllEmpties | NSLoader/HapticsPlayer.cpp:188-198 | clear-all empties the handles, effects and released list; the frozen list is not cleared |
| HapticsPlayer.CreateAfterUnknownHandleCrashes | NSLoader/HapticsPlayer.cpp:82-85 | a command on an unknown handle followed by create on that handle dereferences a missing effect as written |
| HapticsPlayer.CreateAfterUnknownHandleAllocates | NSLoader/HapticsPlayer.cpp:78-96 | with the corrected create the same sequence allocates a fresh effect and the handle becomes live |
| HapticsPlayer.Ids | NSLoader/HapticsPlayer.cpp:135-136 | the ids of the released list, position by position |
| HapticsPlayer.EffectIsExpired | NSLoader/HapticsPlayer.cpp:107-121 | an effect is expired exactly when it is not playing; the global pause flag is ignored |
| HapticsPlayer.AdvanceAll | NSLoader/HapticsPlayer.cpp:126-131 | the loop updates every effect by dt |
| HapticsPlayer.MarkExpired | NSLoader/HapticsPlayer.cpp:135-142 | marks exactly the released entries whose effect has expired and erases exactly those effects |
| HapticsPlayer.Sweep | NSLoader/HapticsPlayer.cpp:146-149 | removes the marked entries and keeps the order of the rest |
| HapticsPlayer.PauseEach | NSLoader/HapticsPlayer.cpp:180-185 | pauses every effect and appends to the frozen list exactly the effects that were playing |
| HapticsPlayer.PlayFrozen | NSLoader/HapticsPlayer.cpp:163-167 | plays exactly the frozen effects and leaves the others unchanged |
| HapticsPlayer.Player.constructor | NSLoader/HapticsPlayer.cpp:10-16 | a new player is empty, unpaused and valid |
| HapticsPlayer.Player.ToInternal | NSLoader/HapticsPlayer.cpp:205-212 | returns the handle's effect id exactly when the handle is live, and registers an unknown handle |
| HapticsPlayer.Player.ControlEffect | NSLoader/HapticsPlayer.cpp:22-56 | the new table is the command's table transition, and the invariant holds |
| HapticsPlayer.Player.Play | NSLoader/HapticsPlayer.cpp:22-29 | play on a handle, against the table transition |
| HapticsPlayer.Player.Pause | NSLoader/HapticsPlayer.cpp:31-38 | pause on a handle, against the table transition |
| HapticsPlayer.Player.Restart | NSLoader/HapticsPlayer.cpp:40-47 | restart on a handle, against the table transition |
| HapticsPlayer.Player.Stop | NSLoader/HapticsPlayer.cpp:49-56 | stop on a handle, against the table transition |
| HapticsPlayer.Player.Release | NSLoader/HapticsPlayer.cpp:59-76 | release of a handle, against the table transition |
| HapticsPlayer.Player.Create | NSLoader/HapticsPlayer.cpp:78-96 | create, against the table transition, with the next counter value as the new id, which is never frozen |
| HapticsPlayer.Player.Update | NSLoader/HapticsPlayer.cpp:123-152 | update advances, marks and sweeps, against the table transition |
| HapticsPlayer.Player.PauseAll | NSLoader/HapticsPlayer.cpp:173-186 | pause-all, against the table transition |
| HapticsPlayer.Player.PlayAll | NSLoader/HapticsPlayer.cpp:155-170 | play-all, against the table transition |
| HapticsPlayer.Player.ClearAll | NSLoader/HapticsPlayer.cpp:188-198 | clear-all, against the table transition |
| Engine.Poll | NSLoader/Engine.cpp:72-93 | no response leaves the status unchanged; a stale response reports nothing connected; a fresh one reports the service connected, and the suit connected exactly when one of the four found slots is connected; it always returns true |
| Engine.NthHandle | NSLoader/Engine.cpp:64-69 | the n-th generated handle is n while n fits in 32 bits |
| Engine.NthHandleStep | NSLoader/Engine.cpp:67-68 | the handle after the n-th is the (n+1)-th: adding one modulo 2^32 steps along `NthHandle` |
| Engine.HandlesDistinctUntilOverflow | NSLoader/Engine.cpp:64-69 | handles 1 to 2^32-1 are non-zero and pairwise distinct |
| Engine.HandleOverflowRepeats | NSLoader/Engine.cpp:64-69 | without the missing bounds check, the counter wraps to 0 and then repeats handle 1 |
| Engine.HandleCommandTable | NSLoader/Engine.cpp:136-156 | the playback command switch on the player's table; `ResetKeepsHandle`, `ReleaseCodeForgetsHandle` and `OtherCommandsDoNothing` state what it does |
| Engine.EngineCommandTable | NSLoader/Engine.cpp:98-129 | the engine command switch on the player's table; `PauseAllThenResumeAll` and `OtherCommandsDoNothing` state what it does |
| Engine.ResetKeepsHandle | NSLoader/Engine.cpp:149-151 | Reset stops the effect and the handle stays live |
| Engine.ReleaseCodeForgetsHandle | NSLoader/Engine.cpp:146-148 | command code 3 releases the handle, after which no playback command changes any effect |
| Engine.OtherCommandsDoNothing | NSLoader/Engine.cpp:124-125 | an unknown playback or engine command changes nothing and sends no driver command |
| Engine.PauseAllThenResumeAll | NSLoader/Engine.cpp:101-106 | the PauseAll engine command followed by ResumeAll restores every effect |
| Engine.StepSeconds | NSLoader/Engine.cpp:20-21 | the timestep is the interval in milliseconds over 1000, which is non-negative and positive for a positive interval |
| Engine.DefaultStepIsFiveMilliseconds | NSLoader/Engine.cpp:37 | with the default interval each timestep advances the player by 0.005 seconds |
| Engine.Engine.constructor | NSLoader/Engine.cpp:29-46 | the engine starts with an empty player, handle counter 0 and a 5 ms interval |
| Engine.Engine.GenHandle | NSLoader/Engine.cpp:64-69 | increments the counter modulo 2^32 and returns the new value, so the n-th call returns `NthHandle(n)` |
| Engine.Engine.HandleCommand | NSLoader/Engine.cpp:136-156 | dispatches Pause, Play, code 3 and Reset to pause, play, release and stop; other codes do nothing |
| Engine.Engine.EngineCommand | NSLoader/Engine.cpp:98-129 | dispatches resume-all, pause-all and destroy-all to the player, and sends the tracking driver commands; always returns true |
| Engine.Engine.CreateEffect | NSLoader/Engine.cpp:180-190 | a missing list returns -1 and changes nothing; otherwise the player creates the effect and 1 is returned |
| Engine.Engine.ExecuteTimestep | NSLoader/Engine.cpp:17-27 | updates the player by the interval in seconds and writes out every command of the model's output, in order |
| HardwareDriver.NewRetained | src/HardwareDriver.cpp:14-23 | a new retained event is playing at time 0 with no queued commands |
| HardwareDriver.StartCommand | src/HardwareDriver.cpp:37-41 | the start command carries the event's area, effect and strength; it is a one-shot Play exactly when the duration is 0, otherwise PlayContinuous |
| HardwareDriver.Begun | src/HardwareDriver.cpp:33-43 | begin on the event's state; `BeginPushesOneCommand` states that it queues exactly the start command |
| HardwareDriver.Paused | src/HardwareDriver.cpp:46-53 | pause on the event's state; `PausePushesNothing` states that only the playing flag drops |
| HardwareDriver.Resumed | src/HardwareDriver.cpp:56-59 | resume, which is begin; `PausedEventNeverAdvances` shows that it does not set the event playing again |
| HardwareDriver.Updated | src/HardwareDriver.cpp:62-67 | update on the event's state; `UpdateCountsOnlyWhilePlaying` and `PlayingEventAdvances` state what it does |
| HardwareDriver.Finished | src/HardwareDriver.cpp:70-73 | whether the time has reached the duration; `FinishedIsStable` shows that it stays true |
| HardwareDriver.BeginPushesOneCommand | src/HardwareDriver.cpp:33-43 | begin appends exactly the start command to the queue and changes nothing else; resume is begin |
| HardwareDriver.PausePushesNothing | src/HardwareDriver.cpp:46-53 | pause stops the event's playing flag and queues no command |
| HardwareDriver.UpdateCountsOnlyWhilePlaying | src/HardwareDriver.cpp:62-67 | a non-zero update advances the time exactly when the event is playing |
| HardwareDriver.FinishedIsStable | src/HardwareDriver.cpp:70-73 | a finished event stays finished under non-negative updates |
| HardwareDriver.PausedEventNeverAdvances | src/HardwareDriver.cpp:46-67 | an event that was paused and then resumed never advances again, so an unfinished one never finishes |
| HardwareDriver.PlayingEventAdvances | src/HardwareDriver.cpp:62-67 | n updates of a playing event advance its time by n times dt |
| HardwareDriver.RetainedEvent.constructor | src/HardwareDriver.cpp:14-23 | the new event is the new retained state |
| HardwareDriver.RetainedEvent.Begin | src/HardwareDriver.cpp:33-43 | the event after begin, against the begin transition |
| HardwareDriver.RetainedEvent.Pause | src/HardwareDriver.cpp:46-53 | the event after pause, against the pause transition |
| HardwareDriver.RetainedEvent.Resume | src/HardwareDriver.cpp:56-59 | the event after resume, against the resume transition |
| HardwareDriver.RetainedEvent.Update | src/HardwareDriver.cpp:62-67 | the event after update, against the update transition |
| HardwareDriver.RetainedEvent.IsFinished | src/HardwareDriver.cpp:70-73 | finished exactly when the time has reached the duration |
| HardwareDriver.FindEvent | src/HardwareDriver.cpp:108 | the index of the first event with the handle, or the length when no event has it |
| HardwareDriver.ZoneUpdate | src/HardwareDriver.cpp:76-81 | updating the zone keeps the number of events |
| HardwareDriver.ZoneCreate | src/HardwareDriver.cpp:96-103 | create on the zone's events; `CreatedEventIsActive` states what it does |
| HardwareDriver.ZoneControl | src/HardwareDriver.cpp:105-128 | a playback command on the zone's events; `ControlOfUnknownHandle`, `ControlChangesOneEvent` and `ResetRemovesOneEvent` state what it does |
| HardwareDriver.CreatedEventIsActive | src/HardwareDriver.cpp:96-103 | a created event is appended after the existing ones, playing at time 0 with the new handle |
| HardwareDriver.ControlOfUnknownHandle | src/HardwareDriver.cpp:108-112 | a command for a handle that no event has changes nothing |
| HardwareDriver.ControlChangesOneEvent | src/HardwareDriver.cpp:113-120 | Play resumes and Pause pauses the first event with the handle, and no other event changes |
| HardwareDriver.ResetRemovesOneEvent | src/HardwareDriver.cpp:121-124 | Reset removes the first event with the handle and keeps the others in order |
| HardwareDriver.UpdateZoneAdvancesEach | src/HardwareDriver.cpp:76-81 | the zone update applies the event update to every event, in place |
| HardwareDriver.ZoneDriver.constructor | src/HardwareDriver.cpp:96-103 | a new zone driver holds no events |
| HardwareDriver.ZoneDriver.Find | src/HardwareDriver.cpp:108 | the search loop returns the first index with the handle, or the length |
| HardwareDriver.ZoneDriver.CreateRetained | src/HardwareDriver.cpp:96-103 | the events after create, against the zone create function |
| HardwareDriver.ZoneDriver.ControlRetained | src/HardwareDriver.cpp:105-128 | the events after a command, against the zone control function |
| HardwareDriver.ZoneDriver.Update | src/HardwareDriver.cpp:76-81 | the events after the update loop, against the zone update function |
| DiscreteHapticEvent.Set | src/Plugin/test/test_main.cpp:205-219 | storing a value binds the key to it and leaves every other key alone |
| DiscreteHapticEvent.GetOr | src/Plugin/test/test_main.cpp:205-248 | returns the stored value when the key is present with the requested type (float, uint32_t, int, or a vector of float or int), and the default otherwise |
| DiscreteHapticEvent.GetOrReturnsWhatWasSet | src/Plugin/test/test_main.cpp:210-219 | what was put in comes back out |
| DiscreteHapticEvent.GetOrIgnoresOtherKeys | src/Plugin/test/test_main.cpp:221-224 | storing under another key does not change a lookup |
| DiscreteHapticEvent.GetOrWrongTypeGivesDefault | src/Plugin/test/test_main.cpp:226-229 | asking for the wrong type gives the default |
| DiscreteHapticEvent.OverwriteKeepsNewest | src/Plugin/test/test_main.cpp:231-241 | overwriting a key, even with another type, keeps only the newest value |
| DiscreteHapticEvent.AbsentKeyGivesDefault | src/Plugin/test/test_main.cpp:243-248 | an empty event gives the default |
| DiscreteHapticEvent.Validate | src/Plugin/test/test_main.cpp:278-319 | the four outcomes of validating one key: required but missing, wrong type, failing the constraint, or no error, each exactly in its case |
| DiscreteHapticEvent.MakeValidators | src/Plugin/Events/DiscreteHapticEvent.cpp:36-43 | three optional validators over three distinct keys: strength as a float accepted exactly in [0, 1], repetitions as a uint32_t accepted exactly above 0, and waveform as an int accepted exactly above 0 |
| DiscreteHapticEvent.Errors | src/Plugin/test/test_main.cpp:321-332 | every validator's error is reported, and every reported error comes from a validator |
| DiscreteHapticEvent.EmptyParamsAreValid | src/Plugin/test/test_main.cpp:325-332 | an event with no data passes validation |
| DiscreteHapticEvent.ValidatorErrors | src/Plugin/Events/DiscreteHapticEvent.cpp:39-41 | each key passes exactly when it is absent or holds a value of the right type in range; a strength outside [0, 1], zero repetitions and a waveform at or below 0 are invalid values; a value of another type is the wrong type |
| DiscreteHapticEvent.ClickFamilyCode | src/Plugin/Events/DiscreteHapticEvent.cpp:16-17 | the default family "click" has code 3, and code 3 names "click" |
| DiscreteHapticEvent.Parsed | src/Plugin/Events/DiscreteHapticEvent.cpp:44-54 | parsing succeeds exactly when the waveform code (3 by default) names a family; on success the event holds that code and its family name |
| DiscreteHapticEvent.EmptyParamsParseToDefaults | src/Plugin/Events/DiscreteHapticEvent.cpp:44-54 | an empty event parses to strength 1, family click and duration 0 |
| DiscreteHapticEvent.ParseFallsBackToDefaults | src/Plugin/Events/DiscreteHapticEvent.cpp:46-50 | values of the wrong type are ignored in favour of the defaults |
| DiscreteHapticEvent.ParseKnownWaveform | src/Plugin/Events/DiscreteHapticEvent.cpp:44-54 | a known waveform code with a strength and repetitions parses to exactly those values and the family's name |
| DiscreteHapticEvent.DiscreteHapticEvent.constructor | src/Plugin/Events/DiscreteHapticEvent.cpp:11-18 | a new event has strength 1, duration 0 and the click family |
| DiscreteHapticEvent.DiscreteHapticEvent.Duration | src/Plugin/Events/DiscreteHapticEvent.cpp:22-26 | a zero duration is reported as a quarter-second one-shot; any other duration is reported as is; a non-negative duration is reported as positive |
| DiscreteHapticEvent.DiscreteHapticEvent.DoParse | src/Plugin/Events/DiscreteHapticEvent.cpp:44-54 | the event holds the parsed payload when the family is known; otherwise the strength, duration and code are stored and the lookup fails |
| DiscreteHapticEvent.DiscreteHapticEvent.IsEqual | src/Plugin/Events/DiscreteHapticEvent.cpp:56-64 | two events are equal exactly when their strength, family code, family name and duration agree |
| DiscreteHapticEvent.IsEqualIsEquivalence | src/Plugin/Events/DiscreteHapticEvent.cpp:56-64 | the event equality is reflexive, symmetric and transitive |
| SuitEvent.DefaultFields | NSLoader/SuitEvent.cpp:13-15 | the default event is at time 0, strength 1, duration 0, area 0, effect "click" |
| SuitEvent.SetFloat | NSLoader/SuitEvent.cpp:18-35 | returns true exactly for "strength", "time" and "duration", sets exactly that field, and leaves the event unchanged for any other key |
| SuitEvent.SetInt | NSLoader/SuitEvent.cpp:37-50 | "area" stores the value as uint32_t; "effect" stores the family name of the code and fails on an unknown code; other keys return false and change nothing |
| SuitEvent.SetFloatLastWins | NSLoader/SuitEvent.cpp:18-35 | setting the same float key twice keeps the last value |
| SuitEvent.SetFloatCommutes | NSLoader/SuitEvent.cpp:18-35 | setting two different float keys gives the same event in either order |
| SuitEvent.SettersAreSeparate | NSLoader/SuitEvent.cpp:18-50 | a float key is ignored by the int setter and an int key by the float setter; the key comparison is case-sensitive |
| SuitEvent.SetEffectByCode | NSLoader/SuitEvent.cpp:43-47 | setting "effect" to a family's code stores that family's name |
| SuitEvent.BasicHapticEvent.constructor | NSLoader/SuitEvent.cpp:4-11 | the event holds the given fields |
| SuitEvent.BasicHapticEvent.Default | NSLoader/SuitEvent.cpp:13-15 | the default constructor gives the default fields |
| SuitEvent.BasicHapticEvent.DoSetFloat | NSLoader/SuitEvent.cpp:18-35 | the result and the new fields are those of the float setter |
| SuitEvent.BasicHapticEvent.DoSetInt | NSLoader/SuitEvent.cpp:37-50 | the result and the new fields are those of the int setter; a failed family lookup changes nothing |

## Left out

- The priority model and the `_model.Update(dt)` output. The commands that the model produces for a timestep are a parameter of `Engine.Engine.ExecuteTimestep`.
- The internals of `PlayableEffect` (its event timeline and its generator). Effects follow the `IPlayable` contract, and an effect's duration is taken from its event list.
- Playable.AfterRestart: the body of `NS::Playable::Restart`, which `HapticsPlayer::Restart` calls, is not part of this model. Restart is taken to be a stop followed by a play, so the effect plays again from time 0.
- DependencyResolver.Load: why the loader rejects a file (a missing file, or one that does not parse) is not modelled. A rejected file is an `AssetFile` with no definition, and `Load` then returns false and changes nothing.
- `ParameterizedEvent::TryGet` and `HasKey` are not part of this model. The parameter set is modelled only through `Set` and `GetOr`.
- Stopping at the end of an effect's duration: an effect stops once its time exceeds the duration, as `HapticsPlayer.cpp` and the tests use it. Stop keeps the current time, as the tests at test_main.cpp:104-116 observe, rather than returning the effect to its initial state as the comment in `IPlayable.h` says.
- Random uuids (`_uuidGen`) are modelled as a counter (`nextId`), and `uuid_hasher` as the identity. Hash collisions between uuids are not modelled.
- HapticsPlayer.Player.ClearAll: does not model the call to `Stop` on each effect before the map is cleared. That call is observable only through the priority model, which is not part of this model.
- The player holds its effects by value in a map. This is sound because each effect is owned through a `unique_ptr` and is never aliased.
- The mutexes and the timer thread. Every operation is modelled as atomic.
- The messenger I/O. `ReadSuits` is the parameter of `Engine.Poll`, together with the current time. `WriteHaptics` and `WriteCommand` append to the `hapticsWritten` and `driverCommands` lists.
- `PollTracking`, `PollLogs`, `GetError` and the destructor's sleep, because they are I/O only.
- The flatbuffer `CreateEffect(handle, data, size)` overload, because it is buffer verification and decoding. `Engine.Engine.CreateEffect` models the `EventList` overload.
- Floats are modelled as reals, so float rounding is not modelled.
- The numeric values of the `NSVR_PlaybackCommand` and `NSVR_EngineCommand` enums are not modelled. They are constructors here, with `OtherCommand(code)` for the rest. Code 3 is the release case in `Engine::HandleCommand`.
- HardwareDriver.ZoneDriver.CreateRetained: each event's queue is its own `commands` list. In the source the queue is a temporary buffer local to `createRetained`, and each event keeps a reference to it after it has gone out of scope.
- HardwareDriver.ZoneDriver.ControlRetained: `std::remove(begin, end, it)` compares events with an iterator, which does not compile as intended. It is modelled as removing the event that was found.
- HapticsPlayer.Player.ToInternal: `toInternalUUID` has no return statement on its not-found path, which is undefined behaviour. It is modelled as returning no effect, which is what its callers test for.
- DiscreteHapticEvent.DiscreteHapticEvent.DoParse: `ToEffectFamilyString` is not defined in `EnumTranslator.cpp`. It is modelled with the family-code table (`EnumTranslator.FamilyName`), and an unknown code fails the way `bimap::at` throws.
- DiscreteHapticEvent.Errors: models the aggregation of validator errors that the event-validation test relies on. The validation driver itself is not part of this model.
- HapticArgs.HashCombineBase: `std::hash<T>` is a parameter, and `size_t` is taken to be 64 bits. The `GetCombinedHash` overrides are declared but their bodies are not part of this model.
- Loading from disk, which is the asset loader's job. An asset file is given as an already parsed node, and `Node`'s default field values are not modelled.
- The declaration-only headers and `TestClass` are not part of this model.

## Findings

| source | as written | input that shows it | evidently intended | confidence | as-written member | corrected member |
|---|---|---|---|---|---|---|
| NSLoader/HapticsPlayer.cpp:82-85 | `Create` takes the "handle already known" branch whenever the handle is in the handle map, and then calls `Stop()` on `_effects[...]`. That is a null `unique_ptr` if the handle maps to an id with no effect. | `Play(h)` on a never-created handle `h`: `toInternalUUID` inserts `h` with the nil uuid. Then `Create(h, events)` dereferences the null effect. | Treat a handle without a live effect like a new handle, and allocate a fresh effect for it. | not executed | HapticsPlayer.CreateAfterUnknownHandleCrashes | HapticsPlayer.CreateAfterUnknownHandleAllocates |
