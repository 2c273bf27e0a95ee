/** The discrete haptic event (src/Plugin/Events/DiscreteHapticEvent.cpp) and
    the keyed parameters it is parsed from.

    A parameter set maps event keys to typed values. `GetOr` returns the value
    stored under a key when it has the requested type and the default
    otherwise; a validator checks one key and reports a missing required key,
    a value of the wrong type or a value its constraint rejects (the
    behaviour pinned down by src/Plugin/test/test_main.cpp:205-319). */
module DiscreteHapticEvent {
  import opened Outcomes
  import opened EnumTranslator

  /** The event keys this event reads; `OtherKey` is any other key. */
  datatype EventKey = StrengthKey | RepetitionsKey | WaveformKey | OtherKey(code: int)

  /** The value types a parameter can hold: `float`, `uint32_t`, `int`,
      `std::vector<float>` and `std::vector<int>`. */
  datatype ValueType = FloatType | UIntType | IntType | FloatsType | IntsType

  /** A stored parameter value. */
  datatype Value =
    | FloatValue(f: real)
    | UIntValue(u: uint32)
    | IntValue(i: int)
    | FloatsValue(floats: seq<real>)
    | IntsValue(ints: seq<int>)

  function TypeOf(v: Value): ValueType
  {
    match v
    case FloatValue(_) => FloatType
    case UIntValue(_) => UIntType
    case IntValue(_) => IntType
    case FloatsValue(_) => FloatsType
    case IntsValue(_) => IntsType
  }

  /** A `ParameterizedEvent`: the value last set for each key. */
  type Params = map<EventKey, Value>

  /** `Set`: store a value under a key, replacing any earlier value and type. */
  function Set(data: Params, key: EventKey, v: Value): (r: Params)
    ensures key in r && r[key] == v
    ensures forall k :: k != key ==> (k in r <==> k in data) && (k in data ==> r[k] == data[k])
  {
    data[key := v]
  }

  /** `GetOr<T>`: the stored value when the key is present with type `t`,
      the default otherwise. */
  function GetOr(data: Params, key: EventKey, t: ValueType, default: Value): (r: Value)
    requires TypeOf(default) == t
    ensures TypeOf(r) == t
    ensures key in data && TypeOf(data[key]) == t ==> r == data[key]
    ensures key !in data || TypeOf(data[key]) != t ==> r == default
  {
    if key in data && TypeOf(data[key]) == t then data[key] else default
  }

  /** `GetOr<float>`. */
  function FloatOr(data: Params, key: EventKey, default: real): real
  {
    match GetOr(data, key, FloatType, FloatValue(default))
    case FloatValue(f) => f
    case _ => default
  }

  /** `GetOr<uint32_t>`. */
  function UIntOr(data: Params, key: EventKey, default: uint32): uint32
  {
    match GetOr(data, key, UIntType, UIntValue(default))
    case UIntValue(u) => u
    case _ => default
  }

  /** `GetOr<int>`. */
  function IntOr(data: Params, key: EventKey, default: int): int
  {
    match GetOr(data, key, IntType, IntValue(default))
    case IntValue(i) => i
    case _ => default
  }

  // ---- The parameter semantics the tests pin down

  /** You get out what you put in. */
  lemma GetOrReturnsWhatWasSet(data: Params, key: EventKey, v: Value, default: Value)
    requires TypeOf(default) == TypeOf(v)
    ensures GetOr(Set(data, key, v), key, TypeOf(v), default) == v
  {
  }

  /** Setting another key does not change what a key gives. */
  lemma GetOrIgnoresOtherKeys(data: Params, key: EventKey, other: EventKey, v: Value, t: ValueType, default: Value)
    requires other != key && TypeOf(default) == t
    ensures GetOr(Set(data, other, v), key, t, default) == GetOr(data, key, t, default)
  {
  }

  /** Asking for the wrong type gives the default. */
  lemma GetOrWrongTypeGivesDefault(data: Params, key: EventKey, v: Value, t: ValueType, default: Value)
    requires TypeOf(v) != t && TypeOf(default) == t
    ensures GetOr(Set(data, key, v), key, t, default) == default
  {
  }

  /** Overwriting a key, with a value of the same or another type, keeps only the newest value. */
  lemma OverwriteKeepsNewest(data: Params, key: EventKey, v1: Value, v2: Value, default: Value)
    requires TypeOf(default) == TypeOf(v2)
    ensures Set(Set(data, key, v1), key, v2) == Set(data, key, v2)
    ensures GetOr(Set(Set(data, key, v1), key, v2), key, TypeOf(v2), default) == v2
  {
  }

  /** A key that was never set gives the default, whatever the type. */
  lemma AbsentKeyGivesDefault(key: EventKey, t: ValueType, default: Value)
    requires TypeOf(default) == t
    ensures GetOr(map[], key, t, default) == default
  {
  }

  // ---- Validation

  /** The constraints of the discrete event's validators. */
  datatype Constraint = StrengthInUnitRange | RepetitionsPositive | WaveformPositive

  /** Whether a constraint accepts a value of its type. */
  predicate Accepts(c: Constraint, v: Value)
  {
    match c
    case StrengthInUnitRange => v.FloatValue? && 0.0 <= v.f <= 1.0
    case RepetitionsPositive => v.UIntValue? && v.u > 0
    case WaveformPositive => v.IntValue? && v.i > 0
  }

  /** A validator for one key: the type it expects, the constraint, and
      whether the key must be present. */
  datatype Validator = Validator(key: EventKey, expected: ValueType, constraint: Constraint, required: bool)

  /** `HLVR_Event_KeyParseError`. */
  datatype KeyParseError = KeyRequired | WrongValueType | InvalidValue

  /** `validate<T>`: an absent key is an error only when required; a present
      key of the wrong type, or one the constraint rejects, is an error. */
  function Validate(v: Validator, data: Params): (r: Option<KeyParseError>)
    ensures r == Some(KeyRequired) <==> v.key !in data && v.required
    ensures r == Some(WrongValueType) <==> v.key in data && TypeOf(data[v.key]) != v.expected
    ensures r == Some(InvalidValue) <==> v.key in data && TypeOf(data[v.key]) == v.expected && !Accepts(v.constraint, data[v.key])
    ensures r.None? <==> if v.key in data then TypeOf(data[v.key]) == v.expected && Accepts(v.constraint, data[v.key]) else !v.required
  {
    if v.key !in data then (if v.required then Some(KeyRequired) else None)
    else if TypeOf(data[v.key]) != v.expected then Some(WrongValueType)
    else if !Accepts(v.constraint, data[v.key]) then Some(InvalidValue)
    else None
  }

  /** `makeValidators`: strength in [0, 1], repetitions above 0 and waveform
      above 0, each optional. */
  function MakeValidators(): (vs: seq<Validator>)
    ensures |vs| == 3 && forall i :: 0 <= i < |vs| ==> !vs[i].required
    ensures forall i, j :: 0 <= i < j < |vs| ==> vs[i].key != vs[j].key
    ensures vs[0].key == StrengthKey && vs[0].expected == FloatType
    ensures forall v: Value :: v.FloatValue? ==> (Accepts(vs[0].constraint, v) <==> 0.0 <= v.f <= 1.0)
    ensures vs[1].key == RepetitionsKey && vs[1].expected == UIntType
    ensures forall v: Value :: v.UIntValue? ==> (Accepts(vs[1].constraint, v) <==> v.u > 0)
    ensures vs[2].key == WaveformKey && vs[2].expected == IntType
    ensures forall v: Value :: v.IntValue? ==> (Accepts(vs[2].constraint, v) <==> v.i > 0)
  {
    [ Validator(StrengthKey, FloatType, StrengthInUnitRange, false),
      Validator(RepetitionsKey, UIntType, RepetitionsPositive, false),
      Validator(WaveformKey, IntType, WaveformPositive, false) ]
  }

  /** The errors of a parameter set under a list of validators, key by key. */
  function Errors(vs: seq<Validator>, data: Params): (r: seq<(EventKey, KeyParseError)>)
    ensures |r| <= |vs|
    ensures forall i :: 0 <= i < |vs| && Validate(vs[i], data).Some? ==> (vs[i].key, Validate(vs[i], data).value) in r
    ensures forall i :: 0 <= i < |r| ==> exists j :: 0 <= j < |vs| && vs[j].key == r[i].0 && Validate(vs[j], data) == Some(r[i].1)
    decreases |vs|
  {
    if |vs| == 0 then []
    else
      var rest := Errors(vs[1..], data);
      assert forall i :: 1 <= i < |vs| ==> vs[i] == vs[1..][i - 1];
      match Validate(vs[0], data)
      case None => rest
      case Some(e) => [(vs[0].key, e)] + rest
  }

  /** An event with no parameters is valid. */
  lemma EmptyParamsAreValid()
    ensures Errors(MakeValidators(), map[]) == []
  {
    var vs := MakeValidators();
    assert forall i :: 0 <= i < |vs| ==> Validate(vs[i], map[]).None?;
  }

  /** What the discrete event's validators accept and reject, key by key: a
      key passes exactly when it is absent, or present with the right type and
      in range; a present value of another type is the wrong type; and one of
      the right type out of range is an invalid value. */
  lemma ValidatorErrors(data: Params)
    ensures var vs := MakeValidators();
      && (Validate(vs[0], data).None? <==>
            StrengthKey !in data || (data[StrengthKey].FloatValue? && 0.0 <= data[StrengthKey].f <= 1.0))
      && (Validate(vs[1], data).None? <==>
            RepetitionsKey !in data || (data[RepetitionsKey].UIntValue? && data[RepetitionsKey].u > 0))
      && (Validate(vs[2], data).None? <==>
            WaveformKey !in data || (data[WaveformKey].IntValue? && data[WaveformKey].i > 0))
      && (StrengthKey in data && data[StrengthKey].FloatValue? && !(0.0 <= data[StrengthKey].f <= 1.0) ==> Validate(vs[0], data) == Some(InvalidValue))
      && (RepetitionsKey in data && data[RepetitionsKey] == UIntValue(0) ==> Validate(vs[1], data) == Some(InvalidValue))
      && (WaveformKey in data && data[WaveformKey].IntValue? && data[WaveformKey].i <= 0 ==> Validate(vs[2], data) == Some(InvalidValue))
      && (forall i :: 0 <= i < |vs| && vs[i].key in data && TypeOf(data[vs[i].key]) != vs[i].expected ==> Validate(vs[i], data) == Some(WrongValueType))
      && (forall i :: 0 <= i < |vs| && vs[i].key !in data ==> Validate(vs[i], data).None?)
  {
  }

  // ---- The event

  /** The family `doParse` and the constructor fall back to: "click". */
  const ClickFamily: uint32 := 3

  /** A one-shot effect (stored duration 0) lasts a quarter of a second. */
  const OneShotDuration := 0.25

  lemma ClickFamilyCode()
    ensures ToEffectFamily("click") == Some(ClickFamily) && FamilyName(ClickFamily) == Some("click")
  {
  }

  /** What `isEqual` compares: strength, family code, family name and the
      stored duration (the repetitions). */
  datatype Payload = Payload(strength: real, requestedEffectFamily: uint32, parsedEffectFamily: string, duration: real)

  /** The payload `doParse` computes from a parameter set, or a failure when
      the waveform names no family (the translator's lookup throws). The
      family code is the waveform converted to 32 bits. */
  function Parsed(data: Params): (r: Result<Payload, uint32>)
    ensures var code := ToUint32(IntOr(data, WaveformKey, ClickFamily as int));
      && (r.Success? <==> FamilyName(code).Some?)
      && (r.Failure? ==> r.error == code)
      && (r.Success? ==> r.value.requestedEffectFamily == code && Some(r.value.parsedEffectFamily) == FamilyName(code))
  {
    var code := ToUint32(IntOr(data, WaveformKey, ClickFamily as int));
    match FamilyName(code)
    case None => Failure(code)
    case Some(name) => Success(Payload(FloatOr(data, StrengthKey, 1.0), code, name, UIntOr(data, RepetitionsKey, 0) as real))
  }

  /** Parsing with no parameters gives the constructor's defaults. */
  lemma EmptyParamsParseToDefaults()
    ensures Parsed(map[]) == Success(Payload(1.0, ClickFamily, "click", 0.0))
  {
  }

  /** Absent keys and keys of the wrong type parse as the defaults: strength
      1, repetitions 0 and the click family. */
  lemma ParseFallsBackToDefaults(data: Params)
    requires StrengthKey !in data || !data[StrengthKey].FloatValue?
    requires RepetitionsKey !in data || !data[RepetitionsKey].UIntValue?
    requires WaveformKey !in data || !data[WaveformKey].IntValue?
    ensures Parsed(data) == Success(Payload(1.0, ClickFamily, "click", 0.0))
  {
  }

  /** A known waveform parses to its family's name, and the stored values come through. */
  lemma ParseKnownWaveform(s: real, n: uint32, code: uint32, name: string)
    requires ToEffectFamily(name) == Some(code) && code as int < 0x8000_0000
    ensures Parsed(map[StrengthKey := FloatValue(s), RepetitionsKey := UIntValue(n), WaveformKey := IntValue(code as int)])
      == Success(Payload(s, code, name, n as real))
  {
    FamilyRoundTrip(code, name);
  }

  /** The discrete haptic event. */
  class DiscreteHapticEvent {
    const time: real
    var strength: real
    var duration: real
    var requestedEffectFamily: uint32
    var parsedEffectFamily: string

    function Abstract(): Payload
      reads this
    {
      Payload(strength, requestedEffectFamily, parsedEffectFamily, duration)
    }

    /** The family code and the family name agree. */
    predicate Consistent()
      reads this
    {
      FamilyName(requestedEffectFamily) == Some(parsedEffectFamily)
    }

    /** Strength 1, duration 0, the click family. */
    constructor (time: real)
      ensures this.time == time && Abstract() == Payload(1.0, ClickFamily, "click", 0.0) && Consistent()
    {
      this.time := time;
      strength := 1.0;
      duration := 0.0;
      parsedEffectFamily := "click";
      requestedEffectFamily := ClickFamily;
    }

    /** `duration()`: the stored duration, or a quarter second for a one-shot. */
    function Duration(): (d: real)
      reads this
      ensures duration == 0.0 ==> d == OneShotDuration
      ensures duration != 0.0 ==> d == duration
      ensures duration >= 0.0 ==> d > 0.0
    {
      if duration == 0.0 then OneShotDuration else duration
    }

    /** `doParse`: strength, repetitions and waveform by `GetOr`, then the
        family name of the waveform. An unknown family makes the lookup
        throw after the first three fields were stored; that is `ok == false`. */
    method DoParse(data: Params) returns (ok: bool)
      modifies this
      ensures ok <==> Parsed(data).Success?
      ensures ok ==> Abstract() == Parsed(data).value && Consistent()
      ensures !ok ==> Abstract() == old(Abstract()).(strength := FloatOr(data, StrengthKey, 1.0),
                        duration := UIntOr(data, RepetitionsKey, 0) as real, requestedEffectFamily := Parsed(data).error)
    {
      strength := FloatOr(data, StrengthKey, 1.0);
      duration := UIntOr(data, RepetitionsKey, 0) as real;
      requestedEffectFamily := ToUint32(IntOr(data, WaveformKey, ClickFamily as int));
      var name := FamilyName(requestedEffectFamily);
      if name.None? {
        return false;
      }
      parsedEffectFamily := name.value;
      return true;
    }

    /** `isEqual`: the two events carry the same payload. */
    function IsEqual(other: DiscreteHapticEvent): (r: bool)
      reads this, other
      ensures r <==> Abstract() == other.Abstract()
    {
      && strength == other.strength
      && requestedEffectFamily == other.requestedEffectFamily
      && parsedEffectFamily == other.parsedEffectFamily
      && duration == other.duration
    }
  }

  /** `isEqual` is reflexive and symmetric, and transitive. */
  lemma IsEqualIsEquivalence(a: DiscreteHapticEvent, b: DiscreteHapticEvent, c: DiscreteHapticEvent)
    ensures a.IsEqual(a)
    ensures a.IsEqual(b) ==> b.IsEqual(a)
    ensures a.IsEqual(b) && b.IsEqual(c) ==> a.IsEqual(c)
  {
  }
}
