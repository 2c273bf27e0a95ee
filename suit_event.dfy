/** The loader's basic haptic event (NSLoader/SuitEvent.cpp): a time, a
    strength, a duration, an area and an effect family name, set one field
    at a time by name. Keys are compared exactly, as `strcmp` does. */
module SuitEvent {
  import opened Outcomes
  import opened EnumTranslator

  /** The fields of a basic haptic event. */
  datatype Fields = Fields(time: real, strength: real, duration: real, area: uint32, effect: string)

  /** The default event: time 0, strength 1, duration 0, area 0, the click family. */
  function DefaultFields(): (f: Fields)
    ensures f.time == 0.0 && f.strength == 1.0 && f.duration == 0.0 && f.area == 0 && f.effect == "click"
  {
    Fields(0.0, 1.0, 0.0, 0, "click")
  }

  /** The keys `doSetFloat` knows. */
  predicate FloatKey(key: string)
  {
    key == "strength" || key == "time" || key == "duration"
  }

  /** The keys `doSetInt` knows. */
  predicate IntKey(key: string)
  {
    key == "area" || key == "effect"
  }

  /** `doSetFloat`: whether the key names a float field, and the fields after
      setting it. */
  function SetFloat(f: Fields, key: string, value: real): (r: (bool, Fields))
    ensures r.0 <==> FloatKey(key)
    ensures key == "strength" ==> r.1 == f.(strength := value)
    ensures key == "time" ==> r.1 == f.(time := value)
    ensures key == "duration" ==> r.1 == f.(duration := value)
    ensures !FloatKey(key) ==> r.1 == f
  {
    if key == "strength" then (true, f.(strength := value))
    else if key == "time" then (true, f.(time := value))
    else if key == "duration" then (true, f.(duration := value))
    else (false, f)
  }

  /** The effect family code was not in the translator's table, so the
      lookup threw. */
  datatype UnknownFamily = UnknownFamily(code: uint32)

  /** `doSetInt`: "area" stores the value converted to 32 bits; "effect"
      stores the family name of the value, and fails when there is none;
      any other key sets nothing. */
  function SetInt(f: Fields, key: string, value: int): (r: Result<(bool, Fields), UnknownFamily>)
    ensures r.Failure? <==> key == "effect" && FamilyName(ToUint32(value)).None?
    ensures r.Success? ==> (r.value.0 <==> IntKey(key))
    ensures key == "area" ==> r == Success((true, f.(area := ToUint32(value))))
    ensures key == "effect" && r.Success? ==> Some(r.value.1.effect) == FamilyName(ToUint32(value)) && r.value.1 == f.(effect := r.value.1.effect)
    ensures !IntKey(key) ==> r == Success((false, f))
  {
    if key == "area" then Success((true, f.(area := ToUint32(value))))
    else if key == "effect" then
      match FamilyName(ToUint32(value))
      case None => Failure(UnknownFamily(ToUint32(value)))
      case Some(name) => Success((true, f.(effect := name)))
    else Success((false, f))
  }

  /** Setting a field twice is setting it once with the later value. */
  lemma SetFloatLastWins(f: Fields, key: string, v1: real, v2: real)
    ensures SetFloat(SetFloat(f, key, v1).1, key, v2) == SetFloat(f, key, v2)
  {
  }

  /** Setters of two different float keys commute. */
  lemma SetFloatCommutes(f: Fields, k1: string, k2: string, v1: real, v2: real)
    requires k1 != k2
    ensures SetFloat(SetFloat(f, k1, v1).1, k2, v2).1 == SetFloat(SetFloat(f, k2, v2).1, k1, v1).1
  {
  }

  /** The float and integer setters touch disjoint fields, and a key is
      matched only when it is spelled exactly: "Strength" sets nothing. */
  lemma SettersAreSeparate(f: Fields, key: string, x: real, n: int)
    ensures FloatKey(key) ==> SetInt(f, key, n) == Success((false, f))
    ensures IntKey(key) ==> SetFloat(f, key, x) == (false, f)
    ensures SetFloat(f, "Strength", x) == (false, f)
  {
  }

  /** Setting "effect" to a family's code stores that family's name, and
      reading the name back gives the code. */
  lemma SetEffectByCode(f: Fields, code: uint32, name: string)
    requires ToEffectFamily(name) == Some(code)
    ensures SetInt(f, "effect", code as int) == Success((true, f.(effect := name)))
  {
    FamilyRoundTrip(code, name);
  }

  /** `BasicHapticEvent` in the loader. */
  class BasicHapticEvent {
    var time: real
    var strength: real
    var duration: real
    var area: uint32
    var effect: string

    function Abstract(): Fields
      reads this
    {
      Fields(time, strength, duration, area, effect)
    }

    constructor (time: real, strength: real, duration: real, area: uint32, effect: string)
      ensures Abstract() == Fields(time, strength, duration, area, effect)
    {
      this.time, this.strength, this.duration, this.area, this.effect := time, strength, duration, area, effect;
    }

    constructor Default()
      ensures Abstract() == DefaultFields()
    {
      time, strength, duration, area, effect := 0.0, 1.0, 0.0, 0, "click";
    }

    method DoSetFloat(key: string, value: real) returns (found: bool)
      modifies this
      ensures (found, Abstract()) == SetFloat(old(Abstract()), key, value)
    {
      if key == "strength" {
        strength := value;
        return true;
      } else if key == "time" {
        time := value;
        return true;
      } else if key == "duration" {
        duration := value;
        return true;
      }
      return false;
    }

    /** A failed family lookup leaves the event unchanged. */
    method DoSetInt(key: string, value: int) returns (r: Result<bool, UnknownFamily>)
      modifies this
      ensures SetInt(old(Abstract()), key, value).Failure? ==> r.Failure? && Abstract() == old(Abstract())
      ensures SetInt(old(Abstract()), key, value).Success? ==> r == Success(SetInt(old(Abstract()), key, value).value.0)
      ensures SetInt(old(Abstract()), key, value).Success? ==> Abstract() == SetInt(old(Abstract()), key, value).value.1
    {
      if key == "area" {
        area := ToUint32(value);
        return Success(true);
      } else if key == "effect" {
        var name := FamilyName(ToUint32(value));
        if name.None? {
          return Failure(UnknownFamily(ToUint32(value)));
        }
        effect := name.value;
        return Success(true);
      }
      return Success(false);
    }
  }
}
