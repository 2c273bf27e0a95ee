/** `HapticsPlayer` (NSLoader/HapticsPlayer.cpp): the table of live effects.
    Client handles map to internal ids, internal ids map to playable effects,
    released effects wait in a list until they stop playing, and `PauseAll`
    records the effects it froze so that `PlayAll` resumes exactly those.

    The table is specified on values (`Table` and the functions below) and
    implemented by the class `Player`, whose methods are proved to act on
    `Abstract()` as those functions say. Internal ids are drawn from a counter
    instead of a random UUID generator; id 0 is the nil UUID. */
module HapticsPlayer {
  import opened Outcomes
  import opened Playable

  /** `HapticHandle`: the 32-bit handle a client names an effect by. */
  type Handle = uint32

  /** An internal effect id (a UUID in the source). */
  type Id = nat

  /** The nil UUID: what `operator[]` records for a handle it did not know. */
  const Nil: Id := 0

  /** An entry of the released list; `needsSweep` is set while `Update` runs. */
  datatype Released = Released(id: Id, needsSweep: bool)

  /** The player's state as a value: the handle map, each live effect's
      state, the released ids in order, the frozen ids and the global pause flag. */
  datatype Table = Table(handles: map<Handle, Id>, effects: map<Id, PlayableState>, released: seq<Id>, frozen: set<Id>, paused: bool)

  predicate Distinct(ids: seq<Id>)
  {
    forall i, j :: 0 <= i < j < |ids| ==> ids[i] != ids[j]
  }

  /** What every operation keeps, stated on the handle map, the set of live
      ids and the released ids: released ids are live and listed once, and a
      handle maps to nil or to a live, unreleased effect of its own. */
  predicate KeysValid(handles: map<Handle, Id>, live: set<Id>, released: seq<Id>)
  {
    && Nil !in live
    && (forall i :: 0 <= i < |released| ==> released[i] in live)
    && Distinct(released)
    && (forall h :: h in handles && handles[h] != Nil ==> handles[h] in live && handles[h] !in released)
    && (forall h1, h2 :: h1 in handles && h2 in handles && h1 != h2 && handles[h1] != Nil ==> handles[h1] != handles[h2])
  }

  predicate TableValid(t: Table)
  {
    KeysValid(t.handles, t.effects.Keys, t.released)
  }

  /** A new player. */
  function EmptyTable(): (t: Table)
    ensures TableValid(t)
  {
    Table(map[], map[], [], {}, false)
  }

  /** `_outsideHandleToUUID[hh]`: reading an unknown handle records it as nil. */
  function Touch(t: Table, h: Handle): (r: Table)
    ensures h in r.handles && r.effects == t.effects && r.released == t.released
    ensures h in t.handles ==> r == t
    ensures h !in t.handles ==> r.handles == t.handles[h := Nil] && r.frozen == t.frozen && r.paused == t.paused
  {
    if h in t.handles then t else t.(handles := t.handles[h := Nil])
  }

  /** Whether a handle names a live effect. */
  predicate Live(t: Table, h: Handle)
  {
    h in t.handles && t.handles[h] in t.effects
  }

  /** `Play`, `Pause`, `Stop`, `Restart`: through `toInternalUUID`, the
      command reaches the effect of a live handle; otherwise nothing but the
      handle lookup happens. */
  function Control(t: Table, h: Handle, cmd: Command): Table
  {
    var t1 := Touch(t, h);
    var id := t1.handles[h];
    if id in t1.effects then t1.(effects := t1.effects[id := Apply(cmd, t1.effects[id])]) else t1
  }

  /** `Release`: the handle is forgotten; its effect, if live, joins the released list. */
  function ReleaseHandle(t: Table, h: Handle): Table
  {
    var id := if h in t.handles then t.handles[h] else Nil;
    t.(handles := t.handles - {h}, released := if id in t.effects then t.released + [id] else t.released)
  }

  /** `Create` with the resubmission path taken only for a handle that names
      a live effect: that effect is replaced in place under the same id;
      otherwise the handle is mapped to the new id `newId`. */
  function CreateEffect(t: Table, h: Handle, newId: Id, duration: real): Table
  {
    if Live(t, h) then t.(effects := t.effects[t.handles[h] := Fresh(duration)])
    else t.(handles := t.handles[h := newId], effects := t.effects[newId := Fresh(duration)])
  }

  /** Dereferencing the null effect that `_effects[id]` yields for an id with no effect. */
  datatype Crash = NullEffect

  /** `Create` as written: the resubmission path is taken for every known
      handle, including one that only a lookup mapped to nil, and then
      `_effects[nil]->Stop()` dereferences a null pointer. */
  function CreateAsWritten(t: Table, h: Handle, newId: Id, duration: real): (r: Result<Table, Crash>)
    ensures r.Failure? <==> h in t.handles && !Live(t, h)
    ensures r.Success? ==> r.value == CreateEffect(t, h, newId, duration)
  {
    if h in t.handles then
      if t.handles[h] !in t.effects then Failure(NullEffect)
      else Success(t.(effects := t.effects[t.handles[h] := Fresh(duration)]))
    else Success(t.(handles := t.handles[h := newId], effects := t.effects[newId := Fresh(duration)]))
  }

  /** Every effect after one `Update(dt)` step. */
  function Advanced(effects: map<Id, PlayableState>, dt: real): map<Id, PlayableState>
  {
    map id | id in effects :: AfterUpdate(effects[id], dt)
  }

  /** `EffectIsExpired` on the advanced effects: the effect is not playing. */
  predicate Expired(adv: map<Id, PlayableState>, id: Id)
  {
    id in adv && adv[id].phase != Playing
  }

  /** The released ids that survive the sweep, in their original order. */
  function StillPlaying(ids: seq<Id>, adv: map<Id, PlayableState>): (r: seq<Id>)
    decreases |ids|
  {
    if |ids| == 0 then []
    else StillPlaying(ids[..|ids| - 1], adv) + (if Expired(adv, ids[|ids| - 1]) then [] else [ids[|ids| - 1]])
  }

  /** `Update(dt)`: advance every effect, then erase each released effect that
      is no longer playing and sweep it from the released list. */
  function UpdateTable(t: Table, dt: real): Table
  {
    var adv := Advanced(t.effects, dt);
    t.(effects := map id | id in adv && !(id in t.released && Expired(adv, id)) :: adv[id],
       released := StillPlaying(t.released, adv))
  }

  /** `PauseAll`: pause every playing effect and record it as frozen. */
  function PauseAllTable(t: Table): Table
  {
    t.(paused := true,
       effects := map id | id in t.effects :: AfterPause(t.effects[id]),
       frozen := t.frozen + (set id | id in t.effects && t.effects[id].phase == Playing))
  }

  /** `PlayAll`: play every frozen effect, then forget the frozen set. */
  function PlayAllTable(t: Table): Table
  {
    t.(paused := false,
       effects := map id | id in t.effects :: if id in t.frozen then AfterPlay(t.effects[id]) else t.effects[id],
       frozen := {})
  }

  /** `ClearAll`: every effect is stopped and dropped, with every handle and
      the released list; the frozen set and the pause flag stay. */
  function ClearAllTable(t: Table): Table
  {
    t.(handles := map[], effects := map[], released := [])
  }

  // ---- Properties of the table operations

  /** A released id survives the sweep exactly when its advanced effect is still playing. */
  lemma {:induction false} StillPlayingMembers(ids: seq<Id>, adv: map<Id, PlayableState>)
    ensures forall id :: id in StillPlaying(ids, adv) <==> id in ids && !Expired(adv, id)
    ensures Distinct(ids) ==> Distinct(StillPlaying(ids, adv))
    decreases |ids|
  {
    if |ids| > 0 {
      var init, last := ids[..|ids| - 1], ids[|ids| - 1];
      assert ids == init + [last];
      StillPlayingMembers(init, adv);
      if Distinct(ids) {
        assert Distinct(init);
        assert last !in init;
      }
    }
  }

  /** The control commands keep the table valid. */
  lemma ControlKeepsValid(t: Table, h: Handle, cmd: Command)
    requires TableValid(t)
    ensures TableValid(Control(t, h, cmd))
  {
  }

  /** `Release` keeps the table valid: the released id was live, and the only
      handle that named it is gone. */
  lemma ReleaseKeepsValid(t: Table, h: Handle)
    requires TableValid(t)
    ensures TableValid(ReleaseHandle(t, h))
  {
    var r := ReleaseHandle(t, h);
    if h in t.handles && t.handles[h] in t.effects {
      var id := t.handles[h];
      assert id !in t.released;
      forall i, j | 0 <= i < j < |r.released| ensures r.released[i] != r.released[j] {
        if j == |t.released| {
          assert r.released[i] == t.released[i];
        }
      }
      forall h2 | h2 in r.handles && r.handles[h2] != Nil
        ensures r.handles[h2] in r.effects && r.handles[h2] !in r.released
      {
        assert h2 != h && r.handles[h2] == t.handles[h2];
        assert t.handles[h2] != id;
      }
    }
  }

  /** `Create` with an id that is not in use keeps the table valid. */
  lemma CreateKeepsValid(t: Table, h: Handle, newId: Id, duration: real)
    requires TableValid(t)
    requires newId != Nil && newId !in t.effects
    requires forall h' :: h' in t.handles ==> t.handles[h'] != newId
    ensures TableValid(CreateEffect(t, h, newId, duration))
  {
  }

  /** `Update` keeps the table valid: the sweep removes from the released list
      exactly the ids it erases from the effects. */
  lemma UpdateKeepsValid(t: Table, dt: real)
    requires TableValid(t)
    ensures TableValid(UpdateTable(t, dt))
  {
    var u, adv := UpdateTable(t, dt), Advanced(t.effects, dt);
    StillPlayingMembers(t.released, adv);
    forall i | 0 <= i < |u.released| ensures u.released[i] in u.effects {
      assert u.released[i] in StillPlaying(t.released, adv);
    }
  }

  /** `PauseAll`, `PlayAll` and `ClearAll` keep the table valid. */
  lemma BulkOperationsKeepValid(t: Table)
    requires TableValid(t)
    ensures TableValid(PauseAllTable(t)) && TableValid(PlayAllTable(t)) && TableValid(ClearAllTable(t))
  {
  }

  /** `Create` for a handle without a live effect adds exactly one effect,
      maps the handle to the fresh id, and touches no other entry. */
  lemma CreateNewEffect(t: Table, h: Handle, newId: Id, duration: real)
    requires !Live(t, h) && newId !in t.effects
    ensures var r := CreateEffect(t, h, newId, duration);
      && r.handles == t.handles[h := newId]
      && r.effects.Keys == t.effects.Keys + {newId} && |r.effects| == |t.effects| + 1
      && r.effects[newId] == Fresh(duration)
      && (forall id :: id in t.effects ==> r.effects[id] == t.effects[id])
      && r.released == t.released && r.frozen == t.frozen
  {
  }

  /** `Create` for a handle with a live effect keeps the handle's id and the
      number of effects, and replaces only that effect with a new one. */
  lemma CreateReplacesEffect(t: Table, h: Handle, newId: Id, duration: real)
    requires Live(t, h)
    ensures var r := CreateEffect(t, h, newId, duration);
      && r.handles == t.handles && r.effects.Keys == t.effects.Keys && |r.effects| == |t.effects|
      && r.effects[t.handles[h]] == Fresh(duration)
      && (forall id :: id in t.effects && id != t.handles[h] ==> r.effects[id] == t.effects[id])
  {
  }

  /** A command for a handle without a live effect changes no effect; the only
      trace is the handle recorded as nil when it was unknown. */
  lemma ControlOfDeadHandle(t: Table, h: Handle, cmd: Command)
    requires TableValid(t) && !Live(t, h)
    ensures Control(t, h, cmd) == Touch(t, h)
    ensures Control(t, h, cmd).effects == t.effects
  {
  }

  /** A command for a live handle changes that one effect as the playable says. */
  lemma ControlOfLiveHandle(t: Table, h: Handle, cmd: Command)
    requires Live(t, h)
    ensures var r := Control(t, h, cmd);
      && r.handles == t.handles && r.released == t.released && r.effects.Keys == t.effects.Keys
      && r.effects[t.handles[h]] == Apply(cmd, t.effects[t.handles[h]])
      && forall id :: id in t.effects && id != t.handles[h] ==> r.effects[id] == t.effects[id]
  {
  }

  /** `Release` forgets the handle and leaves every effect in place; the
      released list grows by the handle's effect exactly when it was live. */
  lemma ReleaseForgetsHandle(t: Table, h: Handle)
    requires TableValid(t)
    ensures var r := ReleaseHandle(t, h);
      && h !in r.handles && r.effects == t.effects
      && (Live(t, h) ==> r.released == t.released + [t.handles[h]])
      && (!Live(t, h) ==> r.released == t.released)
  {
  }

  /** After `Release`, commands through the same handle reach no effect. */
  lemma ReleasedHandleIsDead(t: Table, h: Handle, cmd: Command)
    requires TableValid(t)
    ensures Control(ReleaseHandle(t, h), h, cmd).effects == ReleaseHandle(t, h).effects
  {
  }

  /** `Update` advances every effect; a released effect is erased exactly when
      it is no longer playing, an unreleased one never is, and afterwards the
      released list holds only playing effects. */
  lemma UpdateReapsStoppedReleased(t: Table, dt: real)
    requires TableValid(t)
    ensures var u, adv := UpdateTable(t, dt), Advanced(t.effects, dt);
      && (forall id :: id in u.effects <==> id in t.effects && !(id in t.released && adv[id].phase != Playing))
      && (forall id :: id in u.effects ==> u.effects[id] == AfterUpdate(t.effects[id], dt))
      && (forall id :: id in t.effects && id !in t.released ==> id in u.effects)
      && (forall id :: id in u.released <==> id in t.released && adv[id].phase == Playing)
      && (forall i :: 0 <= i < |u.released| ==> u.released[i] in u.effects && u.effects[u.released[i]].phase == Playing)
  {
    var u, adv := UpdateTable(t, dt), Advanced(t.effects, dt);
    StillPlayingMembers(t.released, adv);
    forall i | 0 <= i < |u.released| ensures u.released[i] in u.effects && u.effects[u.released[i]].phase == Playing {
      assert u.released[i] in StillPlaying(t.released, adv);
    }
  }

  /** `PauseAll` then `PlayAll`, starting with nothing frozen, gives back every
      effect exactly: the playing ones resume where they were, and the ones the
      user had paused stay paused. */
  lemma PauseAllThenPlayAll(t: Table)
    requires t.frozen == {}
    ensures var r := PlayAllTable(PauseAllTable(t));
      && r.effects == t.effects && r.frozen == {} && !r.paused
      && r.handles == t.handles && r.released == t.released
  {
    var r := PlayAllTable(PauseAllTable(t));
    forall id | id in t.effects ensures r.effects[id] == t.effects[id] {
      if t.effects[id].phase == Playing {
        PauseThenPlayRestores(t.effects[id]);
      }
    }
  }

  /** `PauseAll` leaves no effect playing and freezes exactly the ones that were. */
  lemma PauseAllFreezesPlaying(t: Table)
    ensures var r := PauseAllTable(t);
      && r.paused && (forall id :: id in r.effects ==> r.effects[id].phase != Playing)
      && (forall id :: id in t.effects ==> (id in r.frozen - t.frozen <==> t.effects[id].phase == Playing && id !in t.frozen))
  {
  }

  /** `ClearAll` leaves no handle, no effect and no released entry. */
  lemma ClearAllEmpties(t: Table)
    ensures var r := ClearAllTable(t);
      r.handles == map[] && r.effects == map[] && r.released == [] && r.frozen == t.frozen
  {
  }

  /** The source's `Create` crashes on a handle that a command looked up
      before any effect was created for it. */
  lemma CreateAfterUnknownHandleCrashes(h: Handle, newId: Id, duration: real)
    ensures CreateAsWritten(Control(EmptyTable(), h, PlayCmd), h, newId, duration) == Failure(NullEffect)
  {
  }

  /** With the corrected guard the same calls create a live effect for the handle. */
  lemma CreateAfterUnknownHandleAllocates(h: Handle, newId: Id, duration: real)
    requires newId != Nil
    ensures var r := CreateEffect(Control(EmptyTable(), h, PlayCmd), h, newId, duration);
      && TableValid(r) && Live(r, h) && r.handles[h] == newId && r.effects[newId] == Fresh(duration)
  {
  }

  // ---- The player

  /** The ids of a released list, in order. */
  function Ids(rs: seq<Released>): (ids: seq<Id>)
    ensures |ids| == |rs| && forall k :: 0 <= k < |rs| ==> ids[k] == rs[k].id
  {
    seq(|rs|, k requires 0 <= k < |rs| => rs[k].id)
  }

  /** The ids a list holds, as a set. */
  function Members(ids: seq<Id>): set<Id>
  {
    set id | id in ids
  }

  /** `EffectIsExpired`: an effect is expired when its info says it is not
      playing; the global-pause argument is not read. */
  function EffectIsExpired(p: PlayableState, isGlobalPause: bool): (expired: bool)
    ensures expired <==> p.phase != Playing
  {
    InfoOf(p).state != Playing
  }

  /** The first loop of `Update`: every effect advanced by `dt`. */
  method AdvanceAll(effects: map<Id, PlayableState>, dt: real) returns (adv: map<Id, PlayableState>)
    ensures adv == Advanced(effects, dt)
  {
    adv := effects;
    var todo := adv.Keys;
    while todo != {}
      invariant todo <= effects.Keys && adv.Keys == effects.Keys
      invariant forall id :: id in adv ==> adv[id] == if id in todo then effects[id] else AfterUpdate(effects[id], dt)
      decreases |todo|
    {
      var id :| id in todo;
      adv := adv[id := AfterUpdate(adv[id], dt)];
      todo := todo - {id};
    }
  }

  /** The marking loop of `Update`: each released entry whose effect is
      expired is marked, and that effect is released and erased. */
  method MarkExpired(rs: seq<Released>, adv: map<Id, PlayableState>, isGlobalPause: bool)
      returns (marked: seq<Released>, live: map<Id, PlayableState>)
    requires Distinct(Ids(rs)) && forall k :: 0 <= k < |rs| ==> rs[k].id in adv && !rs[k].needsSweep
    ensures Ids(marked) == Ids(rs)
    ensures forall k :: 0 <= k < |rs| ==> (marked[k].needsSweep <==> Expired(adv, rs[k].id))
    ensures live == map id | id in adv && !(id in Ids(rs) && Expired(adv, id)) :: adv[id]
  {
    ghost var ids := Ids(rs);
    marked, live := rs, adv;
    var i := 0;
    while i < |marked|
      invariant 0 <= i <= |marked| == |ids| && Ids(marked) == ids
      invariant forall k :: 0 <= k < |ids| ==> (marked[k].needsSweep <==> k < i && Expired(adv, ids[k]))
      invariant forall id :: id in live <==> id in adv && !(id in ids[..i] && Expired(adv, id))
      invariant forall id :: id in live ==> live[id] == adv[id]
    {
      var id := marked[i].id;
      assert id !in ids[..i];
      if EffectIsExpired(live[id], isGlobalPause) {
        marked := marked[i := Released(id, true)];
        live := live[id := AfterRelease(live[id])];
        live := live - {id};
      }
      assert ids[..i + 1] == ids[..i] + [id];
      i := i + 1;
    }
    assert ids[..i] == ids;
  }

  /** The sweep of `Update`: the unmarked entries, in order. When exactly the
      expired entries are marked, the survivors are `StillPlaying`. */
  method Sweep(marked: seq<Released>, ghost adv: map<Id, PlayableState>) returns (kept: seq<Released>)
    requires forall k :: 0 <= k < |marked| ==> (marked[k].needsSweep <==> Expired(adv, marked[k].id))
    ensures Ids(kept) == StillPlaying(Ids(marked), adv)
    ensures forall k :: 0 <= k < |kept| ==> !kept[k].needsSweep
  {
    ghost var ids := Ids(marked);
    kept := [];
    var j := 0;
    while j < |marked|
      invariant 0 <= j <= |marked| && Ids(kept) == StillPlaying(ids[..j], adv)
      invariant forall k :: 0 <= k < |kept| ==> !kept[k].needsSweep
    {
      assert ids[..j + 1][..j] == ids[..j];
      if !marked[j].needsSweep {
        assert Ids(kept + [marked[j]]) == Ids(kept) + [ids[j]];
        kept := kept + [marked[j]];
      }
      j := j + 1;
    }
    assert ids[..j] == ids;
  }

  /** The loop of `PauseAll`: every playing effect paused and appended to
      the frozen list; the others untouched. */
  method PauseEach(effects: map<Id, PlayableState>, frozen: seq<Id>) returns (live: map<Id, PlayableState>, fr: seq<Id>)
    ensures live == map id | id in effects :: AfterPause(effects[id])
    ensures forall id :: id in fr <==> id in frozen || (id in effects && effects[id].phase == Playing)
    ensures Members(fr) == Members(frozen) + (set id | id in effects && effects[id].phase == Playing)
    ensures |fr| >= |frozen| && fr[..|frozen|] == frozen
  {
    live, fr := effects, frozen;
    var todo := live.Keys;
    while todo != {}
      invariant todo <= effects.Keys && live.Keys == effects.Keys
      invariant forall id :: id in live ==> live[id] == if id in todo then effects[id] else AfterPause(effects[id])
      invariant forall id :: id in fr <==> id in frozen || (id in effects && id !in todo && effects[id].phase == Playing)
      invariant |fr| >= |frozen| && fr[..|frozen|] == frozen
      decreases |todo|
    {
      var id :| id in todo;
      if live[id].phase == Playing {
        live := live[id := AfterPause(live[id])];
        fr := fr + [id];
      }
      todo := todo - {id};
    }
  }

  /** The loop of `PlayAll`: every frozen effect played, the others untouched. */
  method PlayFrozen(effects: map<Id, PlayableState>, frozen: seq<Id>) returns (live: map<Id, PlayableState>)
    ensures live == map id | id in effects :: if id in frozen then AfterPlay(effects[id]) else effects[id]
  {
    live := effects;
    var todo := live.Keys;
    while todo != {}
      invariant todo <= effects.Keys && live.Keys == effects.Keys
      invariant forall id :: id in live ==> live[id] == if id in todo || id !in frozen then effects[id] else AfterPlay(effects[id])
      decreases |todo|
    {
      var id :| id in todo;
      if id in frozen {
        live := live[id := AfterPlay(live[id])];
      }
      todo := todo - {id};
    }
  }

  /** The player. Each effect is held by value: in the source every effect is
      owned by exactly one `unique_ptr` in `_effects`, so updating it in place
      and replacing the map entry cannot be told apart. */
  class Player {
    var handles: map<Handle, Id>
    var effects: map<Id, PlayableState>
    var released: seq<Released>
    var frozen: seq<Id>
    var paused: bool
    /** The id generator: the next id to hand out. */
    var nextId: Id

    ghost function Abstract(): Table
      reads this
    {
      Table(handles, effects, Ids(released), Members(frozen), paused)
    }

    /** The table invariant, plus what the id generator needs: no entry is
        marked between calls, and every id in use or frozen is below the next one. */
    ghost predicate Valid()
      reads this
    {
      && KeysValid(handles, effects.Keys, Ids(released))
      && (forall k :: 0 <= k < |released| ==> !released[k].needsSweep)
      && Nil < nextId
      && (forall id :: id in effects ==> id < nextId)
      && (forall h :: h in handles ==> handles[h] < nextId)
      && (forall k :: 0 <= k < |frozen| ==> frozen[k] < nextId)
    }

    constructor ()
      ensures Valid() && Abstract() == EmptyTable()
    {
      handles, effects, released, frozen := map[], map[], [], [];
      paused := false;
      nextId := 1;
    }

    /** `toInternalUUID`: the id of the live effect a handle names, if there
        is one; an unknown handle is recorded as nil on the way. */
    method ToInternal(hh: Handle) returns (id: Option<Id>)
      requires Valid()
      modifies this
      ensures Valid() && Abstract() == Touch(old(Abstract()), hh)
      ensures effects == old(effects) && released == old(released) && frozen == old(frozen) && nextId == old(nextId)
      ensures id.Some? <==> Live(old(Abstract()), hh)
      ensures id.Some? ==> hh in handles && id.value == handles[hh] && id.value in effects
    {
      if hh !in handles {
        handles := handles[hh := Nil];
      }
      var h := handles[hh];
      if h in effects {
        id := Some(h);
      } else {
        id := None;
      }
    }

    /** The shared body of `Play`, `Pause`, `Stop` and `Restart`. */
    method ControlEffect(hh: Handle, cmd: Command)
      requires Valid()
      modifies this
      ensures Valid() && Abstract() == Control(old(Abstract()), hh, cmd)
      ensures nextId == old(nextId)
    {
      var id := ToInternal(hh);
      if id.Some? {
        effects := effects[id.value := Apply(cmd, effects[id.value])];
      }
    }

    method Play(hh: Handle)
      requires Valid()
      modifies this
      ensures Valid() && Abstract() == Control(old(Abstract()), hh, PlayCmd)
    {
      ControlEffect(hh, PlayCmd);
    }

    method Pause(hh: Handle)
      requires Valid()
      modifies this
      ensures Valid() && Abstract() == Control(old(Abstract()), hh, PauseCmd)
    {
      ControlEffect(hh, PauseCmd);
    }

    method Restart(hh: Handle)
      requires Valid()
      modifies this
      ensures Valid() && Abstract() == Control(old(Abstract()), hh, RestartCmd)
    {
      ControlEffect(hh, RestartCmd);
    }

    method Stop(hh: Handle)
      requires Valid()
      modifies this
      ensures Valid() && Abstract() == Control(old(Abstract()), hh, StopCmd)
    {
      ControlEffect(hh, StopCmd);
    }

    /** `Release`: forget the handle; a live effect joins the released list. */
    method Release(hh: Handle)
      requires Valid()
      modifies this
      ensures Valid() && Abstract() == ReleaseHandle(old(Abstract()), hh)
    {
      ghost var before := Abstract();
      if hh !in handles {
        handles := handles[hh := Nil];
      }
      var h := handles[hh];
      if h in effects {
        released := released + [Released(h, false)];
      }
      handles := handles - {hh};
      ReleaseKeepsValid(before, hh);
      assert Ids(released) == before.released + (if h in effects then [h] else []);
    }

    /** `Create`: resubmission under a handle with a live effect replaces
        that effect under the same id; otherwise a new id is drawn and the
        handle mapped to it. A new id is never among the frozen ones. */
    method Create(h: Handle, duration: real)
      requires Valid()
      modifies this
      ensures Valid() && Abstract() == CreateEffect(old(Abstract()), h, old(nextId), duration)
      ensures !Live(old(Abstract()), h) ==> old(nextId) !in Abstract().frozen
    {
      ghost var before := Abstract();
      if h in handles && handles[h] in effects {
        var id := handles[h];
        effects := effects[id := AfterStop(effects[id])];
        effects := effects[id := Fresh(duration)];
      } else {
        var id := nextId;
        nextId := nextId + 1;
        handles := handles[h := id];
        effects := effects[id := Fresh(duration)];
      }
      CreateKeepsValid(before, h, old(nextId), duration);
    }

    /** `Update(dt)`: advance every effect; then mark each released effect
        that is no longer playing, release it and erase it from the effects;
        then sweep the marked entries out of the released list. */
    method Update(dt: real)
      requires Valid()
      modifies this
      ensures Valid() && Abstract() == UpdateTable(old(Abstract()), dt)
    {
      ghost var before := Abstract();
      var adv := AdvanceAll(effects, dt);
      var marked, live := MarkExpired(released, adv, paused);
      var kept := Sweep(marked, adv);
      effects, released := live, kept;
      UpdateKeepsValid(before, dt);
    }

    /** `PauseAll`: set the global pause flag, pause every playing effect and
        record it as frozen. */
    method PauseAll()
      requires Valid()
      modifies this
      ensures Valid() && Abstract() == PauseAllTable(old(Abstract()))
    {
      var live, fr := PauseEach(effects, frozen);
      forall k | 0 <= k < |fr| ensures fr[k] < nextId {
        if fr[k] in frozen {
          var m :| 0 <= m < |frozen| && frozen[m] == fr[k];
        }
      }
      effects, frozen, paused := live, fr, true;
    }

    /** `PlayAll`: clear the global pause flag, play every frozen effect, and
        forget the frozen list. */
    method PlayAll()
      requires Valid()
      modifies this
      ensures Valid() && Abstract() == PlayAllTable(old(Abstract()))
    {
      var live := PlayFrozen(effects, frozen);
      effects, frozen, paused := live, [], false;
    }

    /** `ClearAll`: drop every handle, effect and released entry. */
    method ClearAll()
      requires Valid()
      modifies this
      ensures Valid() && Abstract() == ClearAllTable(old(Abstract()))
    {
      handles, effects, released := map[], map[], [];
    }
  }
}
