/** The string and code tables of the plugin's EnumTranslator, as constant
    bimaps. Each `init_*` insertion list becomes a total name function (the
    left view, `match` over the enum) and a partial lookup by name (the right
    view); a lookup that `std::map::at` would answer with `out_of_range` is
    `None`. String-keyed lookups branch first on the length and on a
    distinguishing character and end in an exact comparison, which is the
    map lookup written so that its correctness can be checked cheaply. */
module EnumTranslator {
  import opened Outcomes
  /** Named body locations (`init_locations`). */
  datatype Location =
      Chest_Left | Chest_Right | Forearm_Left | Forearm_Right
    | Lower_Ab_Left | Lower_Ab_Right | Mid_Ab_Left | Mid_Ab_Right
    | Shoulder_Left | Shoulder_Right | Upper_Ab_Left | Upper_Ab_Right
    | Upper_Arm_Left | Upper_Arm_Right | Upper_Back_Left | Upper_Back_Right
  /** Waveform effects (`init_effects`). */
  datatype Effect =
      Buzz_100 | Buzz_20 | Buzz_40 | Buzz_60
    | Buzz_80 | Double_Click_100 | Double_Click_60 | Long_Buzz_for_Program_Stop_100
    | Long_Double_Sharp_Click_Medium_100 | Long_Double_Sharp_Click_Medium_60 | Long_Double_Sharp_Click_Medium_80 | Long_Double_Sharp_Click_Strong_100
    | Long_Double_Sharp_Click_Strong_30 | Long_Double_Sharp_Click_Strong_60 | Long_Double_Sharp_Click_Strong_80 | Long_Double_Sharp_Tick_100
    | Long_Double_Sharp_Tick_60 | Long_Double_Sharp_Tick_80 | Medium_Click_100 | Medium_Click_60
    | Medium_Click_80 | Pulsing_Medium_100 | Pulsing_Medium_60 | Pulsing_Sharp_100
    | Pulsing_Sharp_60 | Pulsing_Strong_100 | Pulsing_Strong_60 | Sharp_Click_100
    | Sharp_Click_30 | Sharp_Click_60 | Sharp_Tick_100 | Sharp_Tick_60
    | Sharp_Tick_80 | Short_Double_Click_Medium_100 | Short_Double_Click_Medium_60 | Short_Double_Click_Medium_80
    | Short_Double_Click_Strong_100 | Short_Double_Click_Strong_30 | Short_Double_Click_Strong_60 | Short_Double_Click_Strong_80
    | Short_Double_Sharp_Tick_100 | Short_Double_Sharp_Tick_60 | Short_Double_Sharp_Tick_80 | Smooth_Hum_10
    | Smooth_Hum_20 | Smooth_Hum_30 | Smooth_Hum_40 | Smooth_Hum_50
    | Soft_Bump_100 | Soft_Bump_30 | Soft_Bump_60 | Soft_Fuzz
    | Strong_Buzz | Strong_Click_100 | Strong_Click_1_100 | Strong_Click_2_80
    | Strong_Click_30 | Strong_Click_3_60 | Strong_Click_4_30 | Strong_Click_60
    | Transition_Click_10 | Transition_Click_100 | Transition_Click_20 | Transition_Click_40
    | Transition_Click_60 | Transition_Hum_10 | Transition_Hum_100 | Transition_Hum_20
    | Transition_Hum_40 | Transition_Hum_60 | Transition_Hum_80 | Triple_Click
    | Transition_Click_80
  /** Sides of a pattern (`init_sides`). */
  datatype Side =
      Inherit | Left | Right | Mirror | NotSpecified
  /** Body locations as named in JSON assets (`init_json_locations`). */
  datatype JsonLocation =
      Chest | Forearm | Lower_Ab | Mid_Ab
    | Shoulder | Upper_Ab | Upper_Arm | Upper_Back
  /** Area flags with names (`init_areas`); the `None` flag is `NoArea` here. */
  datatype AreaFlag =
      NoArea | Forearm_Left | Upper_Arm_Left | Shoulder_Left
    | Back_Left | Chest_Left | Upper_Ab_Left | Mid_Ab_Left
    | Lower_Ab_Left | Forearm_Right | Upper_Arm_Right | Shoulder_Right
    | Back_Right | Chest_Right | Upper_Ab_Right | Mid_Ab_Right
    | Lower_Ab_Right | Left_All | Right_All | All_Areas
    | Forearm_Both | Upper_Arm_Both | Shoulder_Both | Back_Both
    | Chest_Both | Upper_Ab_Both | Mid_Ab_Both | Lower_Ab_Both

  // ---- Location
  /** `ToString(Location)`: the location's table name. */
  function LocationName(x: Location): string
  {
    match x
    case Chest_Left => "Chest_Left"
    case Chest_Right => "Chest_Right"
    case Forearm_Left => "Forearm_Left"
    case Forearm_Right => "Forearm_Right"
    case Lower_Ab_Left => "Lower_Ab_Left"
    case Lower_Ab_Right => "Lower_Ab_Right"
    case Mid_Ab_Left => "Mid_Ab_Left"
    case Mid_Ab_Right => "Mid_Ab_Right"
    case Shoulder_Left => "Shoulder_Left"
    case Shoulder_Right => "Shoulder_Right"
    case Upper_Ab_Left => "Upper_Ab_Left"
    case Upper_Ab_Right => "Upper_Ab_Right"
    case Upper_Arm_Left => "Upper_Arm_Left"
    case Upper_Arm_Right => "Upper_Arm_Right"
    case Upper_Back_Left => "Upper_Back_Left"
    case Upper_Back_Right => "Upper_Back_Right"
  }

  /** `ToLocation(string)`: the location with that name; `None` where `at` throws. */
  function ToLocation(s: string): (r: Option<Location>)
    ensures r.Some? ==> LocationName(r.value) == s
  {
    if |s| == 10 then (
      if s == LocationName(Location.Chest_Left) then Some(Location.Chest_Left) else None)
    else if |s| == 11 then (
      if s[9] == 'h' then (
        if s == LocationName(Location.Chest_Right) then Some(Location.Chest_Right) else None)
      else (
        if s == LocationName(Location.Mid_Ab_Left) then Some(Location.Mid_Ab_Left) else None))
    else if |s| == 12 then (
      if s[10] == 'f' then (
        if s == LocationName(Location.Forearm_Left) then Some(Location.Forearm_Left) else None)
      else (
        if s == LocationName(Location.Mid_Ab_Right) then Some(Location.Mid_Ab_Right) else None))
    else if |s| == 13 then (
      if s[2] == 'r' then (
        if s == LocationName(Location.Forearm_Right) then Some(Location.Forearm_Right) else None)
      else if s[2] == 'w' then (
        if s == LocationName(Location.Lower_Ab_Left) then Some(Location.Lower_Ab_Left) else None)
      else if s[2] == 'o' then (
        if s == LocationName(Location.Shoulder_Left) then Some(Location.Shoulder_Left) else None)
      else (
        if s == LocationName(Location.Upper_Ab_Left) then Some(Location.Upper_Ab_Left) else None))
    else if |s| == 14 then (
      if s[2] == 'w' then (
        if s == LocationName(Location.Lower_Ab_Right) then Some(Location.Lower_Ab_Right) else None)
      else if s[2] == 'o' then (
        if s == LocationName(Location.Shoulder_Right) then Some(Location.Shoulder_Right) else None)
      else (
        if s[12] == 'h' then (
          if s == LocationName(Location.Upper_Ab_Right) then Some(Location.Upper_Ab_Right) else None)
        else (
          if s == LocationName(Location.Upper_Arm_Left) then Some(Location.Upper_Arm_Left) else None)))
    else if |s| == 15 then (
      if s[13] == 'h' then (
        if s == LocationName(Location.Upper_Arm_Right) then Some(Location.Upper_Arm_Right) else None)
      else (
        if s == LocationName(Location.Upper_Back_Left) then Some(Location.Upper_Back_Left) else None))
    else if |s| == 16 then (
      if s == LocationName(Location.Upper_Back_Right) then Some(Location.Upper_Back_Right) else None)
    else None
  }

  /** `ToLocation(string, Location)`: the named location, or the default for an unknown name. */
  function ToLocationOr(s: string, default: Location): (r: Location)
    ensures (exists x :: LocationName(x) == s) ==> LocationName(r) == s
    ensures (forall x :: LocationName(x) != s) ==> r == default
  {
    match ToLocation(s)
    case Some(x) => x
    case None =>
      assert forall x :: LocationName(x) != s by {
        forall x ensures LocationName(x) != s { LocationRoundTrip(x); }
      }
      default
  }

  /** The Location table is a bimap: a name is found exactly when it is the name of that value. */
  lemma LocationRoundTrip(x: Location)
    ensures ToLocation(LocationName(x)) == Some(x)
  {
    match x
    case Chest_Left => assert ToLocation("Chest_Left") == Some(Location.Chest_Left);
    case Chest_Right => assert ToLocation("Chest_Right") == Some(Location.Chest_Right);
    case Forearm_Left => assert ToLocation("Forearm_Left") == Some(Location.Forearm_Left);
    case Forearm_Right => assert ToLocation("Forearm_Right") == Some(Location.Forearm_Right);
    case Lower_Ab_Left => assert ToLocation("Lower_Ab_Left") == Some(Location.Lower_Ab_Left);
    case Lower_Ab_Right => assert ToLocation("Lower_Ab_Right") == Some(Location.Lower_Ab_Right);
    case Mid_Ab_Left => assert ToLocation("Mid_Ab_Left") == Some(Location.Mid_Ab_Left);
    case Mid_Ab_Right => assert ToLocation("Mid_Ab_Right") == Some(Location.Mid_Ab_Right);
    case Shoulder_Left => assert ToLocation("Shoulder_Left") == Some(Location.Shoulder_Left);
    case Shoulder_Right => assert ToLocation("Shoulder_Right") == Some(Location.Shoulder_Right);
    case Upper_Ab_Left => assert ToLocation("Upper_Ab_Left") == Some(Location.Upper_Ab_Left);
    case Upper_Ab_Right => assert ToLocation("Upper_Ab_Right") == Some(Location.Upper_Ab_Right);
    case Upper_Arm_Left => assert ToLocation("Upper_Arm_Left") == Some(Location.Upper_Arm_Left);
    case Upper_Arm_Right => assert ToLocation("Upper_Arm_Right") == Some(Location.Upper_Arm_Right);
    case Upper_Back_Left => assert ToLocation("Upper_Back_Left") == Some(Location.Upper_Back_Left);
    case Upper_Back_Right => assert ToLocation("Upper_Back_Right") == Some(Location.Upper_Back_Right);
  }


  // ---- Effect
  /** `ToString(Effect)`: the effect's table name. */
  function EffectName(x: Effect): string
  {
    match x
    case Buzz_100 => "Buzz_100"
    case Buzz_20 => "Buzz_20"
    case Buzz_40 => "Buzz_40"
    case Buzz_60 => "Buzz_60"
    case Buzz_80 => "Buzz_80"
    case Double_Click_100 => "Double_Click_100"
    case Double_Click_60 => "Double_Click_60"
    case Long_Buzz_for_Program_Stop_100 => "Long_Buzz_for_Program_Stop_100"
    case Long_Double_Sharp_Click_Medium_100 => "Long_Double_Sharp_Click_Medium_100"
    case Long_Double_Sharp_Click_Medium_60 => "Long_Double_Sharp_Click_Medium_60"
    case Long_Double_Sharp_Click_Medium_80 => "Long_Double_Sharp_Click_Medium_80"
    case Long_Double_Sharp_Click_Strong_100 => "Long_Double_Sharp_Click_Strong_100"
    case Long_Double_Sharp_Click_Strong_30 => "Long_Double_Sharp_Click_Strong_30"
    case Long_Double_Sharp_Click_Strong_60 => "Long_Double_Sharp_Click_Strong_60"
    case Long_Double_Sharp_Click_Strong_80 => "Long_Double_Sharp_Click_Strong_80"
    case Long_Double_Sharp_Tick_100 => "Long_Double_Sharp_Tick_100"
    case Long_Double_Sharp_Tick_60 => "Long_Double_Sharp_Tick_60"
    case Long_Double_Sharp_Tick_80 => "Long_Double_Sharp_Tick_80"
    case Medium_Click_100 => "Medium_Click_100"
    case Medium_Click_60 => "Medium_Click_60"
    case Medium_Click_80 => "Medium_Click_80"
    case Pulsing_Medium_100 => "Pulsing_Medium_100"
    case Pulsing_Medium_60 => "Pulsing_Medium_60"
    case Pulsing_Sharp_100 => "Pulsing_Sharp_100"
    case Pulsing_Sharp_60 => "Pulsing_Sharp_60"
    case Pulsing_Strong_100 => "Pulsing_Strong_100"
    case Pulsing_Strong_60 => "Pulsing_Strong_60"
    case Sharp_Click_100 => "Sharp_Click_100"
    case Sharp_Click_30 => "Sharp_Click_30"
    case Sharp_Click_60 => "Sharp_Click_60"
    case Sharp_Tick_100 => "Sharp_Tick_100"
    case Sharp_Tick_60 => "Sharp_Tick_60"
    case Sharp_Tick_80 => "Sharp_Tick_80"
    case Short_Double_Click_Medium_100 => "Short_Double_Click_Medium_100"
    case Short_Double_Click_Medium_60 => "Short_Double_Click_Medium_60"
    case Short_Double_Click_Medium_80 => "Short_Double_Click_Medium_80"
    case Short_Double_Click_Strong_100 => "Short_Double_Click_Strong_100"
    case Short_Double_Click_Strong_30 => "Short_Double_Click_Strong_30"
    case Short_Double_Click_Strong_60 => "Short_Double_Click_Strong_60"
    case Short_Double_Click_Strong_80 => "Short_Double_Click_Strong_80"
    case Short_Double_Sharp_Tick_100 => "Short_Double_Sharp_Tick_100"
    case Short_Double_Sharp_Tick_60 => "Short_Double_Sharp_Tick_60"
    case Short_Double_Sharp_Tick_80 => "Short_Double_Sharp_Tick_80"
    case Smooth_Hum_10 => "Smooth_Hum_10"
    case Smooth_Hum_20 => "Smooth_Hum_20"
    case Smooth_Hum_30 => "Smooth_Hum_30"
    case Smooth_Hum_40 => "Smooth_Hum_40"
    case Smooth_Hum_50 => "Smooth_Hum_50"
    case Soft_Bump_100 => "Soft_Bump_100"
    case Soft_Bump_30 => "Soft_Bump_30"
    case Soft_Bump_60 => "Soft_Bump_60"
    case Soft_Fuzz => "Soft_Fuzz"
    case Strong_Buzz => "Strong_Buzz"
    case Strong_Click_100 => "Strong_Click_100"
    case Strong_Click_1_100 => "Strong_Click_1_100"
    case Strong_Click_2_80 => "Strong_Click_2_80"
    case Strong_Click_30 => "Strong_Click_30"
    case Strong_Click_3_60 => "Strong_Click_3_60"
    case Strong_Click_4_30 => "Strong_Click_4_30"
    case Strong_Click_60 => "Strong_Click_60"
    case Transition_Click_10 => "Transition_Click_10"
    case Transition_Click_100 => "Transition_Click_100"
    case Transition_Click_20 => "Transition_Click_20"
    case Transition_Click_40 => "Transition_Click_40"
    case Transition_Click_60 => "Transition_Click_60"
    case Transition_Hum_10 => "Transition_Hum_10"
    case Transition_Hum_100 => "Transition_Hum_100"
    case Transition_Hum_20 => "Transition_Hum_20"
    case Transition_Hum_40 => "Transition_Hum_40"
    case Transition_Hum_60 => "Transition_Hum_60"
    case Transition_Hum_80 => "Transition_Hum_80"
    case Triple_Click => "Triple_Click"
    case Transition_Click_80 => "Transition_Click_80"
  }

  /** `ToEffect(string)`: the effect with that name; `None` where `at` throws. */
  function ToEffect(s: string): (r: Option<Effect>)
    ensures r.Some? ==> EffectName(r.value) == s
  {
    if |s| == 7 then ToEffectOf7(s)
    else if |s| == 8 then ToEffectOf8(s)
    else if |s| == 9 then ToEffectOf9(s)
    else if |s| == 11 then ToEffectOf11(s)
    else if |s| == 12 then ToEffectOf12(s)
    else if |s| == 13 then ToEffectOf13(s)
    else if |s| == 14 then ToEffectOf14(s)
    else if |s| == 15 then ToEffectOf15(s)
    else if |s| == 16 then ToEffectOf16(s)
    else if |s| == 17 then ToEffectOf17(s)
    else if |s| == 18 then ToEffectOf18(s)
    else if |s| == 19 then ToEffectOf19(s)
    else if |s| == 20 then ToEffectOf20(s)
    else if |s| == 25 then ToEffectOf25(s)
    else if |s| == 26 then ToEffectOf26(s)
    else if |s| == 27 then ToEffectOf27(s)
    else if |s| == 28 then ToEffectOf28(s)
    else if |s| == 29 then ToEffectOf29(s)
    else if |s| == 30 then ToEffectOf30(s)
    else if |s| == 33 then ToEffectOf33(s)
    else if |s| == 34 then ToEffectOf34(s)
    else None
  }

  function ToEffectOf7(s: string): (r: Option<Effect>)
    requires |s| == 7
    ensures r.Some? ==> EffectName(r.value) == s
  {
    if s[5] == '2' then (
      if s == EffectName(Effect.Buzz_20) then Some(Effect.Buzz_20) else None)
    else if s[5] == '4' then (
      if s == EffectName(Effect.Buzz_40) then Some(Effect.Buzz_40) else None)
    else if s[5] == '6' then (
      if s == EffectName(Effect.Buzz_60) then Some(Effect.Buzz_60) else None)
    else (
      if s == EffectName(Effect.Buzz_80) then Some(Effect.Buzz_80) else None)
  }

  function ToEffectOf8(s: string): (r: Option<Effect>)
    requires |s| == 8
    ensures r.Some? ==> EffectName(r.value) == s
  {
    if s == EffectName(Effect.Buzz_100) then Some(Effect.Buzz_100) else None
  }

  function ToEffectOf9(s: string): (r: Option<Effect>)
    requires |s| == 9
    ensures r.Some? ==> EffectName(r.value) == s
  {
    if s == EffectName(Effect.Soft_Fuzz) then Some(Effect.Soft_Fuzz) else None
  }

  function ToEffectOf11(s: string): (r: Option<Effect>)
    requires |s| == 11
    ensures r.Some? ==> EffectName(r.value) == s
  {
    if s == EffectName(Effect.Strong_Buzz) then Some(Effect.Strong_Buzz) else None
  }

  function ToEffectOf12(s: string): (r: Option<Effect>)
    requires |s| == 12
    ensures r.Some? ==> EffectName(r.value) == s
  {
    if s[10] == '3' then (
      if s == EffectName(Effect.Soft_Bump_30) then Some(Effect.Soft_Bump_30) else None)
    else if s[10] == '6' then (
      if s == EffectName(Effect.Soft_Bump_60) then Some(Effect.Soft_Bump_60) else None)
    else (
      if s == EffectName(Effect.Triple_Click) then Some(Effect.Triple_Click) else None)
  }

  function ToEffectOf13(s: string): (r: Option<Effect>)
    requires |s| == 13
    ensures r.Some? ==> EffectName(r.value) == s
  {
    if s[11] == '6' then (
      if s == EffectName(Effect.Sharp_Tick_60) then Some(Effect.Sharp_Tick_60) else None)
    else if s[11] == '8' then (
      if s == EffectName(Effect.Sharp_Tick_80) then Some(Effect.Sharp_Tick_80) else None)
    else if s[11] == '1' then (
      if s == EffectName(Effect.Smooth_Hum_10) then Some(Effect.Smooth_Hum_10) else None)
    else if s[11] == '2' then (
      if s == EffectName(Effect.Smooth_Hum_20) then Some(Effect.Smooth_Hum_20) else None)
    else if s[11] == '3' then (
      if s == EffectName(Effect.Smooth_Hum_30) then Some(Effect.Smooth_Hum_30) else None)
    else if s[11] == '4' then (
      if s == EffectName(Effect.Smooth_Hum_40) then Some(Effect.Smooth_Hum_40) else None)
    else if s[11] == '5' then (
      if s == EffectName(Effect.Smooth_Hum_50) then Some(Effect.Smooth_Hum_50) else None)
    else (
      if s == EffectName(Effect.Soft_Bump_100) then Some(Effect.Soft_Bump_100) else None)
  }

  function ToEffectOf14(s: string): (r: Option<Effect>)
    requires |s| == 14
    ensures r.Some? ==> EffectName(r.value) == s
  {
    if s[12] == '3' then (
      if s == EffectName(Effect.Sharp_Click_30) then Some(Effect.Sharp_Click_30) else None)
    else if s[12] == '6' then (
      if s == EffectName(Effect.Sharp_Click_60) then Some(Effect.Sharp_Click_60) else None)
    else (
      if s == EffectName(Effect.Sharp_Tick_100) then Some(Effect.Sharp_Tick_100) else None)
  }

  function ToEffectOf15(s: string): (r: Option<Effect>)
    requires |s| == 15
    ensures r.Some? ==> EffectName(r.value) == s
  {
    if s[13] == '6' then (
      if s[5] == 'e' then (
        if s == EffectName(Effect.Double_Click_60) then Some(Effect.Double_Click_60) else None)
      else if s[5] == 'm' then (
        if s == EffectName(Effect.Medium_Click_60) then Some(Effect.Medium_Click_60) else None)
      else (
        if s == EffectName(Effect.Strong_Click_60) then Some(Effect.Strong_Click_60) else None))
    else if s[13] == '8' then (
      if s == EffectName(Effect.Medium_Click_80) then Some(Effect.Medium_Click_80) else None)
    else if s[13] == '0' then (
      if s == EffectName(Effect.Sharp_Click_100) then Some(Effect.Sharp_Click_100) else None)
    else (
      if s == EffectName(Effect.Strong_Click_30) then Some(Effect.Strong_Click_30) else None)
  }

  function ToEffectOf16(s: string): (r: Option<Effect>)
    requires |s| == 16
    ensures r.Some? ==> EffectName(r.value) == s
  {
    if s[5] == 'e' then (
      if s == EffectName(Effect.Double_Click_100) then Some(Effect.Double_Click_100) else None)
    else if s[5] == 'm' then (
      if s == EffectName(Effect.Medium_Click_100) then Some(Effect.Medium_Click_100) else None)
    else if s[5] == 'n' then (
      if s == EffectName(Effect.Pulsing_Sharp_60) then Some(Effect.Pulsing_Sharp_60) else None)
    else (
      if s == EffectName(Effect.Strong_Click_100) then Some(Effect.Strong_Click_100) else None)
  }

  function ToEffectOf17(s: string): (r: Option<Effect>)
    requires |s| == 17
    ensures r.Some? ==> EffectName(r.value) == s
  {
    if s[15] == '6' then (
      if s[11] == 'i' then (
        if s == EffectName(Effect.Pulsing_Medium_60) then Some(Effect.Pulsing_Medium_60) else None)
      else if s[11] == 'o' then (
        if s == EffectName(Effect.Pulsing_Strong_60) then Some(Effect.Pulsing_Strong_60) else None)
      else if s[11] == 'k' then (
        if s == EffectName(Effect.Strong_Click_3_60) then Some(Effect.Strong_Click_3_60) else None)
      else (
        if s == EffectName(Effect.Transition_Hum_60) then Some(Effect.Transition_Hum_60) else None))
    else if s[15] == '0' then (
      if s == EffectName(Effect.Pulsing_Sharp_100) then Some(Effect.Pulsing_Sharp_100) else None)
    else if s[15] == '8' then (
      if s[13] == '2' then (
        if s == EffectName(Effect.Strong_Click_2_80) then Some(Effect.Strong_Click_2_80) else None)
      else (
        if s == EffectName(Effect.Transition_Hum_80) then Some(Effect.Transition_Hum_80) else None))
    else if s[15] == '3' then (
      if s == EffectName(Effect.Strong_Click_4_30) then Some(Effect.Strong_Click_4_30) else None)
    else if s[15] == '1' then (
      if s == EffectName(Effect.Transition_Hum_10) then Some(Effect.Transition_Hum_10) else None)
    else if s[15] == '2' then (
      if s == EffectName(Effect.Transition_Hum_20) then Some(Effect.Transition_Hum_20) else None)
    else (
      if s == EffectName(Effect.Transition_Hum_40) then Some(Effect.Transition_Hum_40) else None)
  }

  function ToEffectOf18(s: string): (r: Option<Effect>)
    requires |s| == 18
    ensures r.Some? ==> EffectName(r.value) == s
  {
    if s[11] == 'i' then (
      if s == EffectName(Effect.Pulsing_Medium_100) then Some(Effect.Pulsing_Medium_100) else None)
    else if s[11] == 'o' then (
      if s == EffectName(Effect.Pulsing_Strong_100) then Some(Effect.Pulsing_Strong_100) else None)
    else if s[11] == 'k' then (
      if s == EffectName(Effect.Strong_Click_1_100) then Some(Effect.Strong_Click_1_100) else None)
    else (
      if s == EffectName(Effect.Transition_Hum_100) then Some(Effect.Transition_Hum_100) else None)
  }

  function ToEffectOf19(s: string): (r: Option<Effect>)
    requires |s| == 19
    ensures r.Some? ==> EffectName(r.value) == s
  {
    if s[17] == '1' then (
      if s == EffectName(Effect.Transition_Click_10) then Some(Effect.Transition_Click_10) else None)
    else if s[17] == '2' then (
      if s == EffectName(Effect.Transition_Click_20) then Some(Effect.Transition_Click_20) else None)
    else if s[17] == '4' then (
      if s == EffectName(Effect.Transition_Click_40) then Some(Effect.Transition_Click_40) else None)
    else if s[17] == '6' then (
      if s == EffectName(Effect.Transition_Click_60) then Some(Effect.Transition_Click_60) else None)
    else (
      if s == EffectName(Effect.Transition_Click_80) then Some(Effect.Transition_Click_80) else None)
  }

  function ToEffectOf20(s: string): (r: Option<Effect>)
    requires |s| == 20
    ensures r.Some? ==> EffectName(r.value) == s
  {
    if s == EffectName(Effect.Transition_Click_100) then Some(Effect.Transition_Click_100) else None
  }

  function ToEffectOf25(s: string): (r: Option<Effect>)
    requires |s| == 25
    ensures r.Some? ==> EffectName(r.value) == s
  {
    if s[23] == '6' then (
      if s == EffectName(Effect.Long_Double_Sharp_Tick_60) then Some(Effect.Long_Double_Sharp_Tick_60) else None)
    else (
      if s == EffectName(Effect.Long_Double_Sharp_Tick_80) then Some(Effect.Long_Double_Sharp_Tick_80) else None)
  }

  function ToEffectOf26(s: string): (r: Option<Effect>)
    requires |s| == 26
    ensures r.Some? ==> EffectName(r.value) == s
  {
    if s[24] == '0' then (
      if s == EffectName(Effect.Long_Double_Sharp_Tick_100) then Some(Effect.Long_Double_Sharp_Tick_100) else None)
    else if s[24] == '6' then (
      if s == EffectName(Effect.Short_Double_Sharp_Tick_60) then Some(Effect.Short_Double_Sharp_Tick_60) else None)
    else (
      if s == EffectName(Effect.Short_Double_Sharp_Tick_80) then Some(Effect.Short_Double_Sharp_Tick_80) else None)
  }

  function ToEffectOf27(s: string): (r: Option<Effect>)
    requires |s| == 27
    ensures r.Some? ==> EffectName(r.value) == s
  {
    if s == EffectName(Effect.Short_Double_Sharp_Tick_100) then Some(Effect.Short_Double_Sharp_Tick_100) else None
  }

  function ToEffectOf28(s: string): (r: Option<Effect>)
    requires |s| == 28
    ensures r.Some? ==> EffectName(r.value) == s
  {
    if s[26] == '6' then (
      if s[24] == 'm' then (
        if s == EffectName(Effect.Short_Double_Click_Medium_60) then Some(Effect.Short_Double_Click_Medium_60) else None)
      else (
        if s == EffectName(Effect.Short_Double_Click_Strong_60) then Some(Effect.Short_Double_Click_Strong_60) else None))
    else if s[26] == '8' then (
      if s[24] == 'm' then (
        if s == EffectName(Effect.Short_Double_Click_Medium_80) then Some(Effect.Short_Double_Click_Medium_80) else None)
      else (
        if s == EffectName(Effect.Short_Double_Click_Strong_80) then Some(Effect.Short_Double_Click_Strong_80) else None))
    else (
      if s == EffectName(Effect.Short_Double_Click_Strong_30) then Some(Effect.Short_Double_Click_Strong_30) else None)
  }

  function ToEffectOf29(s: string): (r: Option<Effect>)
    requires |s| == 29
    ensures r.Some? ==> EffectName(r.value) == s
  {
    if s[24] == 'm' then (
      if s == EffectName(Effect.Short_Double_Click_Medium_100) then Some(Effect.Short_Double_Click_Medium_100) else None)
    else (
      if s == EffectName(Effect.Short_Double_Click_Strong_100) then Some(Effect.Short_Double_Click_Strong_100) else None)
  }

  function ToEffectOf30(s: string): (r: Option<Effect>)
    requires |s| == 30
    ensures r.Some? ==> EffectName(r.value) == s
  {
    if s == EffectName(Effect.Long_Buzz_for_Program_Stop_100) then Some(Effect.Long_Buzz_for_Program_Stop_100) else None
  }

  function ToEffectOf33(s: string): (r: Option<Effect>)
    requires |s| == 33
    ensures r.Some? ==> EffectName(r.value) == s
  {
    if s[31] == '6' then (
      if s[29] == 'm' then (
        if s == EffectName(Effect.Long_Double_Sharp_Click_Medium_60) then Some(Effect.Long_Double_Sharp_Click_Medium_60) else None)
      else (
        if s == EffectName(Effect.Long_Double_Sharp_Click_Strong_60) then Some(Effect.Long_Double_Sharp_Click_Strong_60) else None))
    else if s[31] == '8' then (
      if s[29] == 'm' then (
        if s == EffectName(Effect.Long_Double_Sharp_Click_Medium_80) then Some(Effect.Long_Double_Sharp_Click_Medium_80) else None)
      else (
        if s == EffectName(Effect.Long_Double_Sharp_Click_Strong_80) then Some(Effect.Long_Double_Sharp_Click_Strong_80) else None))
    else (
      if s == EffectName(Effect.Long_Double_Sharp_Click_Strong_30) then Some(Effect.Long_Double_Sharp_Click_Strong_30) else None)
  }

  function ToEffectOf34(s: string): (r: Option<Effect>)
    requires |s| == 34
    ensures r.Some? ==> EffectName(r.value) == s
  {
    if s[29] == 'm' then (
      if s == EffectName(Effect.Long_Double_Sharp_Click_Medium_100) then Some(Effect.Long_Double_Sharp_Click_Medium_100) else None)
    else (
      if s == EffectName(Effect.Long_Double_Sharp_Click_Strong_100) then Some(Effect.Long_Double_Sharp_Click_Strong_100) else None)
  }

  /** `ToEffect(string, Effect)`: the named effect, or the default for an unknown name. */
  function ToEffectOr(s: string, default: Effect): (r: Effect)
    ensures (exists x :: EffectName(x) == s) ==> EffectName(r) == s
    ensures (forall x :: EffectName(x) != s) ==> r == default
  {
    match ToEffect(s)
    case Some(x) => x
    case None =>
      assert forall x :: EffectName(x) != s by {
        forall x ensures EffectName(x) != s { EffectRoundTrip(x); }
      }
      default
  }

  /** The Effect table is a bimap: a name is found exactly when it is the name of that value.
      The proof takes the table in runs of consecutive entries. */
  lemma EffectRoundTrip(x: Effect)
    ensures ToEffect(EffectName(x)) == Some(x)
  {
    if EffectRun(x) == 0 {
      EffectRunRoundTrip0(x);
    } else if EffectRun(x) == 1 {
      EffectRunRoundTrip1(x);
    } else if EffectRun(x) == 2 {
      EffectRunRoundTrip2(x);
    } else if EffectRun(x) == 3 {
      EffectRunRoundTrip3(x);
    }
  }

  /** The run of the effect table that an effect's entry belongs to. */
  function EffectRun(x: Effect): (k: nat)
    ensures k < 4
  {
    match x
    case Buzz_100 | Buzz_20 | Buzz_40 | Buzz_60 | Buzz_80 | Double_Click_100 | Double_Click_60 | Long_Buzz_for_Program_Stop_100 | Long_Double_Sharp_Click_Medium_100 | Long_Double_Sharp_Click_Medium_60 | Long_Double_Sharp_Click_Medium_80 | Long_Double_Sharp_Click_Strong_100 | Long_Double_Sharp_Click_Strong_30 | Long_Double_Sharp_Click_Strong_60 | Long_Double_Sharp_Click_Strong_80 | Long_Double_Sharp_Tick_100 | Long_Double_Sharp_Tick_60 | Long_Double_Sharp_Tick_80 | Medium_Click_100 => 0
    case Medium_Click_60 | Medium_Click_80 | Pulsing_Medium_100 | Pulsing_Medium_60 | Pulsing_Sharp_100 | Pulsing_Sharp_60 | Pulsing_Strong_100 | Pulsing_Strong_60 | Sharp_Click_100 | Sharp_Click_30 | Sharp_Click_60 | Sharp_Tick_100 | Sharp_Tick_60 | Sharp_Tick_80 | Short_Double_Click_Medium_100 | Short_Double_Click_Medium_60 | Short_Double_Click_Medium_80 | Short_Double_Click_Strong_100 | Short_Double_Click_Strong_30 => 1
    case Short_Double_Click_Strong_60 | Short_Double_Click_Strong_80 | Short_Double_Sharp_Tick_100 | Short_Double_Sharp_Tick_60 | Short_Double_Sharp_Tick_80 | Smooth_Hum_10 | Smooth_Hum_20 | Smooth_Hum_30 | Smooth_Hum_40 | Smooth_Hum_50 | Soft_Bump_100 | Soft_Bump_30 | Soft_Bump_60 | Soft_Fuzz | Strong_Buzz | Strong_Click_100 | Strong_Click_1_100 | Strong_Click_2_80 | Strong_Click_30 => 2
    case Strong_Click_3_60 | Strong_Click_4_30 | Strong_Click_60 | Transition_Click_10 | Transition_Click_100 | Transition_Click_20 | Transition_Click_40 | Transition_Click_60 | Transition_Hum_10 | Transition_Hum_100 | Transition_Hum_20 | Transition_Hum_40 | Transition_Hum_60 | Transition_Hum_80 | Triple_Click | Transition_Click_80 => 3
  }

  lemma EffectRunRoundTrip0(x: Effect)
    requires EffectRun(x) == 0
    ensures ToEffect(EffectName(x)) == Some(x)
  {
    match x
    case Buzz_100 => assert ToEffect("Buzz_100") == Some(Effect.Buzz_100);
    case Buzz_20 => assert ToEffect("Buzz_20") == Some(Effect.Buzz_20);
    case Buzz_40 => assert ToEffect("Buzz_40") == Some(Effect.Buzz_40);
    case Buzz_60 => assert ToEffect("Buzz_60") == Some(Effect.Buzz_60);
    case Buzz_80 => assert ToEffect("Buzz_80") == Some(Effect.Buzz_80);
    case Double_Click_100 => assert ToEffect("Double_Click_100") == Some(Effect.Double_Click_100);
    case Double_Click_60 => assert ToEffect("Double_Click_60") == Some(Effect.Double_Click_60);
    case Long_Buzz_for_Program_Stop_100 => assert ToEffect("Long_Buzz_for_Program_Stop_100") == Some(Effect.Long_Buzz_for_Program_Stop_100);
    case Long_Double_Sharp_Click_Medium_100 => assert ToEffect("Long_Double_Sharp_Click_Medium_100") == Some(Effect.Long_Double_Sharp_Click_Medium_100);
    case Long_Double_Sharp_Click_Medium_60 => assert ToEffect("Long_Double_Sharp_Click_Medium_60") == Some(Effect.Long_Double_Sharp_Click_Medium_60);
    case Long_Double_Sharp_Click_Medium_80 => assert ToEffect("Long_Double_Sharp_Click_Medium_80") == Some(Effect.Long_Double_Sharp_Click_Medium_80);
    case Long_Double_Sharp_Click_Strong_100 => assert ToEffect("Long_Double_Sharp_Click_Strong_100") == Some(Effect.Long_Double_Sharp_Click_Strong_100);
    case Long_Double_Sharp_Click_Strong_30 => assert ToEffect("Long_Double_Sharp_Click_Strong_30") == Some(Effect.Long_Double_Sharp_Click_Strong_30);
    case Long_Double_Sharp_Click_Strong_60 => assert ToEffect("Long_Double_Sharp_Click_Strong_60") == Some(Effect.Long_Double_Sharp_Click_Strong_60);
    case Long_Double_Sharp_Click_Strong_80 => assert ToEffect("Long_Double_Sharp_Click_Strong_80") == Some(Effect.Long_Double_Sharp_Click_Strong_80);
    case Long_Double_Sharp_Tick_100 => assert ToEffect("Long_Double_Sharp_Tick_100") == Some(Effect.Long_Double_Sharp_Tick_100);
    case Long_Double_Sharp_Tick_60 => assert ToEffect("Long_Double_Sharp_Tick_60") == Some(Effect.Long_Double_Sharp_Tick_60);
    case Long_Double_Sharp_Tick_80 => assert ToEffect("Long_Double_Sharp_Tick_80") == Some(Effect.Long_Double_Sharp_Tick_80);
    case Medium_Click_100 => assert ToEffect("Medium_Click_100") == Some(Effect.Medium_Click_100);
  }

  lemma EffectRunRoundTrip1(x: Effect)
    requires EffectRun(x) == 1
    ensures ToEffect(EffectName(x)) == Some(x)
  {
    match x
    case Medium_Click_60 => assert ToEffect("Medium_Click_60") == Some(Effect.Medium_Click_60);
    case Medium_Click_80 => assert ToEffect("Medium_Click_80") == Some(Effect.Medium_Click_80);
    case Pulsing_Medium_100 => assert ToEffect("Pulsing_Medium_100") == Some(Effect.Pulsing_Medium_100);
    case Pulsing_Medium_60 => assert ToEffect("Pulsing_Medium_60") == Some(Effect.Pulsing_Medium_60);
    case Pulsing_Sharp_100 => assert ToEffect("Pulsing_Sharp_100") == Some(Effect.Pulsing_Sharp_100);
    case Pulsing_Sharp_60 => assert ToEffect("Pulsing_Sharp_60") == Some(Effect.Pulsing_Sharp_60);
    case Pulsing_Strong_100 => assert ToEffect("Pulsing_Strong_100") == Some(Effect.Pulsing_Strong_100);
    case Pulsing_Strong_60 => assert ToEffect("Pulsing_Strong_60") == Some(Effect.Pulsing_Strong_60);
    case Sharp_Click_100 => assert ToEffect("Sharp_Click_100") == Some(Effect.Sharp_Click_100);
    case Sharp_Click_30 => assert ToEffect("Sharp_Click_30") == Some(Effect.Sharp_Click_30);
    case Sharp_Click_60 => assert ToEffect("Sharp_Click_60") == Some(Effect.Sharp_Click_60);
    case Sharp_Tick_100 => assert ToEffect("Sharp_Tick_100") == Some(Effect.Sharp_Tick_100);
    case Sharp_Tick_60 => assert ToEffect("Sharp_Tick_60") == Some(Effect.Sharp_Tick_60);
    case Sharp_Tick_80 => assert ToEffect("Sharp_Tick_80") == Some(Effect.Sharp_Tick_80);
    case Short_Double_Click_Medium_100 => assert ToEffect("Short_Double_Click_Medium_100") == Some(Effect.Short_Double_Click_Medium_100);
    case Short_Double_Click_Medium_60 => assert ToEffect("Short_Double_Click_Medium_60") == Some(Effect.Short_Double_Click_Medium_60);
    case Short_Double_Click_Medium_80 => assert ToEffect("Short_Double_Click_Medium_80") == Some(Effect.Short_Double_Click_Medium_80);
    case Short_Double_Click_Strong_100 => assert ToEffect("Short_Double_Click_Strong_100") == Some(Effect.Short_Double_Click_Strong_100);
    case Short_Double_Click_Strong_30 => assert ToEffect("Short_Double_Click_Strong_30") == Some(Effect.Short_Double_Click_Strong_30);
  }

  lemma EffectRunRoundTrip2(x: Effect)
    requires EffectRun(x) == 2
    ensures ToEffect(EffectName(x)) == Some(x)
  {
    match x
    case Short_Double_Click_Strong_60 => assert ToEffect("Short_Double_Click_Strong_60") == Some(Effect.Short_Double_Click_Strong_60);
    case Short_Double_Click_Strong_80 => assert ToEffect("Short_Double_Click_Strong_80") == Some(Effect.Short_Double_Click_Strong_80);
    case Short_Double_Sharp_Tick_100 => assert ToEffect("Short_Double_Sharp_Tick_100") == Some(Effect.Short_Double_Sharp_Tick_100);
    case Short_Double_Sharp_Tick_60 => assert ToEffect("Short_Double_Sharp_Tick_60") == Some(Effect.Short_Double_Sharp_Tick_60);
    case Short_Double_Sharp_Tick_80 => assert ToEffect("Short_Double_Sharp_Tick_80") == Some(Effect.Short_Double_Sharp_Tick_80);
    case Smooth_Hum_10 => assert ToEffect("Smooth_Hum_10") == Some(Effect.Smooth_Hum_10);
    case Smooth_Hum_20 => assert ToEffect("Smooth_Hum_20") == Some(Effect.Smooth_Hum_20);
    case Smooth_Hum_30 => assert ToEffect("Smooth_Hum_30") == Some(Effect.Smooth_Hum_30);
    case Smooth_Hum_40 => assert ToEffect("Smooth_Hum_40") == Some(Effect.Smooth_Hum_40);
    case Smooth_Hum_50 => assert ToEffect("Smooth_Hum_50") == Some(Effect.Smooth_Hum_50);
    case Soft_Bump_100 => assert ToEffect("Soft_Bump_100") == Some(Effect.Soft_Bump_100);
    case Soft_Bump_30 => assert ToEffect("Soft_Bump_30") == Some(Effect.Soft_Bump_30);
    case Soft_Bump_60 => assert ToEffect("Soft_Bump_60") == Some(Effect.Soft_Bump_60);
    case Soft_Fuzz => assert ToEffect("Soft_Fuzz") == Some(Effect.Soft_Fuzz);
    case Strong_Buzz => assert ToEffect("Strong_Buzz") == Some(Effect.Strong_Buzz);
    case Strong_Click_100 => assert ToEffect("Strong_Click_100") == Some(Effect.Strong_Click_100);
    case Strong_Click_1_100 => assert ToEffect("Strong_Click_1_100") == Some(Effect.Strong_Click_1_100);
    case Strong_Click_2_80 => assert ToEffect("Strong_Click_2_80") == Some(Effect.Strong_Click_2_80);
    case Strong_Click_30 => assert ToEffect("Strong_Click_30") == Some(Effect.Strong_Click_30);
  }

  lemma EffectRunRoundTrip3(x: Effect)
    requires EffectRun(x) == 3
    ensures ToEffect(EffectName(x)) == Some(x)
  {
    match x
    case Strong_Click_3_60 => assert ToEffect("Strong_Click_3_60") == Some(Effect.Strong_Click_3_60);
    case Strong_Click_4_30 => assert ToEffect("Strong_Click_4_30") == Some(Effect.Strong_Click_4_30);
    case Strong_Click_60 => assert ToEffect("Strong_Click_60") == Some(Effect.Strong_Click_60);
    case Transition_Click_10 => assert ToEffect("Transition_Click_10") == Some(Effect.Transition_Click_10);
    case Transition_Click_100 => assert ToEffect("Transition_Click_100") == Some(Effect.Transition_Click_100);
    case Transition_Click_20 => assert ToEffect("Transition_Click_20") == Some(Effect.Transition_Click_20);
    case Transition_Click_40 => assert ToEffect("Transition_Click_40") == Some(Effect.Transition_Click_40);
    case Transition_Click_60 => assert ToEffect("Transition_Click_60") == Some(Effect.Transition_Click_60);
    case Transition_Hum_10 => assert ToEffect("Transition_Hum_10") == Some(Effect.Transition_Hum_10);
    case Transition_Hum_100 => assert ToEffect("Transition_Hum_100") == Some(Effect.Transition_Hum_100);
    case Transition_Hum_20 => assert ToEffect("Transition_Hum_20") == Some(Effect.Transition_Hum_20);
    case Transition_Hum_40 => assert ToEffect("Transition_Hum_40") == Some(Effect.Transition_Hum_40);
    case Transition_Hum_60 => assert ToEffect("Transition_Hum_60") == Some(Effect.Transition_Hum_60);
    case Transition_Hum_80 => assert ToEffect("Transition_Hum_80") == Some(Effect.Transition_Hum_80);
    case Triple_Click => assert ToEffect("Triple_Click") == Some(Effect.Triple_Click);
    case Transition_Click_80 => assert ToEffect("Transition_Click_80") == Some(Effect.Transition_Click_80);
  }

  // ---- Side
  /** `ToString(Side)`: the side's table name. */
  function SideName(x: Side): string
  {
    match x
    case Inherit => "inherit"
    case Left => "left"
    case Right => "right"
    case Mirror => "mirror"
    case NotSpecified => "not_specified"
  }

  /** `ToSide(string)`: the side with that name; `None` where `at` throws. */
  function ToSide(s: string): (r: Option<Side>)
    ensures r.Some? ==> SideName(r.value) == s
  {
    if |s| == 4 then (
      if s == SideName(Side.Left) then Some(Side.Left) else None)
    else if |s| == 5 then (
      if s == SideName(Side.Right) then Some(Side.Right) else None)
    else if |s| == 6 then (
      if s == SideName(Side.Mirror) then Some(Side.Mirror) else None)
    else if |s| == 7 then (
      if s == SideName(Side.Inherit) then Some(Side.Inherit) else None)
    else if |s| == 13 then (
      if s == SideName(Side.NotSpecified) then Some(Side.NotSpecified) else None)
    else None
  }

  /** `ToSide(string, Side)`: the named side, or the default for an unknown name. */
  function ToSideOr(s: string, default: Side): (r: Side)
    ensures (exists x :: SideName(x) == s) ==> SideName(r) == s
    ensures (forall x :: SideName(x) != s) ==> r == default
  {
    match ToSide(s)
    case Some(x) => x
    case None =>
      assert forall x :: SideName(x) != s by {
        forall x ensures SideName(x) != s { SideRoundTrip(x); }
      }
      default
  }

  /** The Side table is a bimap: a name is found exactly when it is the name of that value. */
  lemma SideRoundTrip(x: Side)
    ensures ToSide(SideName(x)) == Some(x)
  {
    match x
    case Inherit => assert ToSide("inherit") == Some(Side.Inherit);
    case Left => assert ToSide("left") == Some(Side.Left);
    case Right => assert ToSide("right") == Some(Side.Right);
    case Mirror => assert ToSide("mirror") == Some(Side.Mirror);
    case NotSpecified => assert ToSide("not_specified") == Some(Side.NotSpecified);
  }


  // ---- JsonLocation
  /** `ToString(JsonLocation)`: the JSON location's table name. */
  function JsonLocationName(x: JsonLocation): string
  {
    match x
    case Chest => "chest"
    case Forearm => "forearm"
    case Lower_Ab => "lower_ab"
    case Mid_Ab => "mid_ab"
    case Shoulder => "shoulder"
    case Upper_Ab => "upper_ab"
    case Upper_Arm => "upper_arm"
    case Upper_Back => "upper_back"
  }

  /** `ToJsonLocation(string)`: the JSON location with that name; `None` where `at` throws. */
  function ToJsonLocation(s: string): (r: Option<JsonLocation>)
    ensures r.Some? ==> JsonLocationName(r.value) == s
  {
    if |s| == 5 then (
      if s == JsonLocationName(JsonLocation.Chest) then Some(JsonLocation.Chest) else None)
    else if |s| == 6 then (
      if s == JsonLocationName(JsonLocation.Mid_Ab) then Some(JsonLocation.Mid_Ab) else None)
    else if |s| == 7 then (
      if s == JsonLocationName(JsonLocation.Forearm) then Some(JsonLocation.Forearm) else None)
    else if |s| == 8 then (
      if s[2] == 'w' then (
        if s == JsonLocationName(JsonLocation.Lower_Ab) then Some(JsonLocation.Lower_Ab) else None)
      else if s[2] == 'o' then (
        if s == JsonLocationName(JsonLocation.Shoulder) then Some(JsonLocation.Shoulder) else None)
      else (
        if s == JsonLocationName(JsonLocation.Upper_Ab) then Some(JsonLocation.Upper_Ab) else None))
    else if |s| == 9 then (
      if s == JsonLocationName(JsonLocation.Upper_Arm) then Some(JsonLocation.Upper_Arm) else None)
    else if |s| == 10 then (
      if s == JsonLocationName(JsonLocation.Upper_Back) then Some(JsonLocation.Upper_Back) else None)
    else None
  }

  /** `ToJsonLocation(string, JsonLocation)`: the named JSON location, or the default. */
  function ToJsonLocationOr(s: string, default: JsonLocation): (r: JsonLocation)
    ensures (exists x :: JsonLocationName(x) == s) ==> JsonLocationName(r) == s
    ensures (forall x :: JsonLocationName(x) != s) ==> r == default
  {
    match ToJsonLocation(s)
    case Some(x) => x
    case None =>
      assert forall x :: JsonLocationName(x) != s by {
        forall x ensures JsonLocationName(x) != s { JsonLocationRoundTrip(x); }
      }
      default
  }

  /** The JsonLocation table is a bimap: a name is found exactly when it is the name of that value. */
  lemma JsonLocationRoundTrip(x: JsonLocation)
    ensures ToJsonLocation(JsonLocationName(x)) == Some(x)
  {
    match x
    case Chest => assert ToJsonLocation("chest") == Some(JsonLocation.Chest);
    case Forearm => assert ToJsonLocation("forearm") == Some(JsonLocation.Forearm);
    case Lower_Ab => assert ToJsonLocation("lower_ab") == Some(JsonLocation.Lower_Ab);
    case Mid_Ab => assert ToJsonLocation("mid_ab") == Some(JsonLocation.Mid_Ab);
    case Shoulder => assert ToJsonLocation("shoulder") == Some(JsonLocation.Shoulder);
    case Upper_Ab => assert ToJsonLocation("upper_ab") == Some(JsonLocation.Upper_Ab);
    case Upper_Arm => assert ToJsonLocation("upper_arm") == Some(JsonLocation.Upper_Arm);
    case Upper_Back => assert ToJsonLocation("upper_back") == Some(JsonLocation.Upper_Back);
  }


  // ---- AreaFlag
  /** `ToString(AreaFlag)`: the area flag's table name. */
  function AreaName(x: AreaFlag): string
  {
    match x
    case NoArea => "None"
    case Forearm_Left => "Forearm_Left"
    case Upper_Arm_Left => "Upper_Arm_Left"
    case Shoulder_Left => "Shoulder_Left"
    case Back_Left => "Back_Left"
    case Chest_Left => "Chest_Left"
    case Upper_Ab_Left => "Upper_Ab_Left"
    case Mid_Ab_Left => "Mid_Ab_Left"
    case Lower_Ab_Left => "Lower_Ab_Left"
    case Forearm_Right => "Forearm_Right"
    case Upper_Arm_Right => "Upper_Arm_Right"
    case Shoulder_Right => "Shoulder_Right"
    case Back_Right => "Back_Right"
    case Chest_Right => "Chest_Right"
    case Upper_Ab_Right => "Upper_Ab_Right"
    case Mid_Ab_Right => "Mid_Ab_Right"
    case Lower_Ab_Right => "Lower_Ab_Right"
    case Left_All => "Left_All"
    case Right_All => "Right_All"
    case All_Areas => "All_Areas"
    case Forearm_Both => "Forearm_Both"
    case Upper_Arm_Both => "Upper_Arm_Both"
    case Shoulder_Both => "Shoulder_Both"
    case Back_Both => "Back_Both"
    case Chest_Both => "Chest_Both"
    case Upper_Ab_Both => "Upper_Ab_Both"
    case Mid_Ab_Both => "Mid_Ab_Both"
    case Lower_Ab_Both => "Lower_Ab_Both"
  }

  /** `ToArea(string)`: the area flag with that name; `None` where `at` throws. */
  function ToArea(s: string): (r: Option<AreaFlag>)
    ensures r.Some? ==> AreaName(r.value) == s
  {
    if |s| == 4 then (
      if s == AreaName(AreaFlag.NoArea) then Some(AreaFlag.NoArea) else None)
    else if |s| == 8 then (
      if s == AreaName(AreaFlag.Left_All) then Some(AreaFlag.Left_All) else None)
    else if |s| == 9 then (
      if s[8] == 't' then (
        if s == AreaName(AreaFlag.Back_Left) then Some(AreaFlag.Back_Left) else None)
      else if s[8] == 'l' then (
        if s == AreaName(AreaFlag.Right_All) then Some(AreaFlag.Right_All) else None)
      else if s[8] == 's' then (
        if s == AreaName(AreaFlag.All_Areas) then Some(AreaFlag.All_Areas) else None)
      else (
        if s == AreaName(AreaFlag.Back_Both) then Some(AreaFlag.Back_Both) else None))
    else if |s| == 10 then (
      if s[8] == 'f' then (
        if s == AreaName(AreaFlag.Chest_Left) then Some(AreaFlag.Chest_Left) else None)
      else if s[8] == 'h' then (
        if s == AreaName(AreaFlag.Back_Right) then Some(AreaFlag.Back_Right) else None)
      else (
        if s == AreaName(AreaFlag.Chest_Both) then Some(AreaFlag.Chest_Both) else None))
    else if |s| == 11 then (
      if s[9] == 'f' then (
        if s == AreaName(AreaFlag.Mid_Ab_Left) then Some(AreaFlag.Mid_Ab_Left) else None)
      else if s[9] == 'h' then (
        if s == AreaName(AreaFlag.Chest_Right) then Some(AreaFlag.Chest_Right) else None)
      else (
        if s == AreaName(AreaFlag.Mid_Ab_Both) then Some(AreaFlag.Mid_Ab_Both) else None))
    else if |s| == 12 then (
      if s[10] == 'f' then (
        if s == AreaName(AreaFlag.Forearm_Left) then Some(AreaFlag.Forearm_Left) else None)
      else if s[10] == 'h' then (
        if s == AreaName(AreaFlag.Mid_Ab_Right) then Some(AreaFlag.Mid_Ab_Right) else None)
      else (
        if s == AreaName(AreaFlag.Forearm_Both) then Some(AreaFlag.Forearm_Both) else None))
    else if |s| == 13 then (
      if s[2] == 'o' then (
        if s[12] == 't' then (
          if s == AreaName(AreaFlag.Shoulder_Left) then Some(AreaFlag.Shoulder_Left) else None)
        else (
          if s == AreaName(AreaFlag.Shoulder_Both) then Some(AreaFlag.Shoulder_Both) else None))
      else if s[2] == 'p' then (
        if s[12] == 't' then (
          if s == AreaName(AreaFlag.Upper_Ab_Left) then Some(AreaFlag.Upper_Ab_Left) else None)
        else (
          if s == AreaName(AreaFlag.Upper_Ab_Both) then Some(AreaFlag.Upper_Ab_Both) else None))
      else if s[2] == 'w' then (
        if s[12] == 't' then (
          if s == AreaName(AreaFlag.Lower_Ab_Left) then Some(AreaFlag.Lower_Ab_Left) else None)
        else (
          if s == AreaName(AreaFlag.Lower_Ab_Both) then Some(AreaFlag.Lower_Ab_Both) else None))
      else (
        if s == AreaName(AreaFlag.Forearm_Right) then Some(AreaFlag.Forearm_Right) else None))
    else if |s| == 14 then (
      if s[12] == 'f' then (
        if s == AreaName(AreaFlag.Upper_Arm_Left) then Some(AreaFlag.Upper_Arm_Left) else None)
      else if s[12] == 'h' then (
        if s[2] == 'o' then (
          if s == AreaName(AreaFlag.Shoulder_Right) then Some(AreaFlag.Shoulder_Right) else None)
        else if s[2] == 'p' then (
          if s == AreaName(AreaFlag.Upper_Ab_Right) then Some(AreaFlag.Upper_Ab_Right) else None)
        else (
          if s == AreaName(AreaFlag.Lower_Ab_Right) then Some(AreaFlag.Lower_Ab_Right) else None))
      else (
        if s == AreaName(AreaFlag.Upper_Arm_Both) then Some(AreaFlag.Upper_Arm_Both) else None))
    else if |s| == 15 then (
      if s == AreaName(AreaFlag.Upper_Arm_Right) then Some(AreaFlag.Upper_Arm_Right) else None)
    else None
  }

  /** `ToArea(string, AreaFlag)`: the named area flag, or the default for an unknown name. */
  function ToAreaOr(s: string, default: AreaFlag): (r: AreaFlag)
    ensures (exists x :: AreaName(x) == s) ==> AreaName(r) == s
    ensures (forall x :: AreaName(x) != s) ==> r == default
  {
    match ToArea(s)
    case Some(x) => x
    case None =>
      assert forall x :: AreaName(x) != s by {
        forall x ensures AreaName(x) != s { AreaFlagRoundTrip(x); }
      }
      default
  }

  /** The AreaFlag table is a bimap: a name is found exactly when it is the name of that value. */
  lemma AreaFlagRoundTrip(x: AreaFlag)
    ensures ToArea(AreaName(x)) == Some(x)
  {
    match x
    case NoArea => assert ToArea("None") == Some(AreaFlag.NoArea);
    case Forearm_Left => assert ToArea("Forearm_Left") == Some(AreaFlag.Forearm_Left);
    case Upper_Arm_Left => assert ToArea("Upper_Arm_Left") == Some(AreaFlag.Upper_Arm_Left);
    case Shoulder_Left => assert ToArea("Shoulder_Left") == Some(AreaFlag.Shoulder_Left);
    case Back_Left => assert ToArea("Back_Left") == Some(AreaFlag.Back_Left);
    case Chest_Left => assert ToArea("Chest_Left") == Some(AreaFlag.Chest_Left);
    case Upper_Ab_Left => assert ToArea("Upper_Ab_Left") == Some(AreaFlag.Upper_Ab_Left);
    case Mid_Ab_Left => assert ToArea("Mid_Ab_Left") == Some(AreaFlag.Mid_Ab_Left);
    case Lower_Ab_Left => assert ToArea("Lower_Ab_Left") == Some(AreaFlag.Lower_Ab_Left);
    case Forearm_Right => assert ToArea("Forearm_Right") == Some(AreaFlag.Forearm_Right);
    case Upper_Arm_Right => assert ToArea("Upper_Arm_Right") == Some(AreaFlag.Upper_Arm_Right);
    case Shoulder_Right => assert ToArea("Shoulder_Right") == Some(AreaFlag.Shoulder_Right);
    case Back_Right => assert ToArea("Back_Right") == Some(AreaFlag.Back_Right);
    case Chest_Right => assert ToArea("Chest_Right") == Some(AreaFlag.Chest_Right);
    case Upper_Ab_Right => assert ToArea("Upper_Ab_Right") == Some(AreaFlag.Upper_Ab_Right);
    case Mid_Ab_Right => assert ToArea("Mid_Ab_Right") == Some(AreaFlag.Mid_Ab_Right);
    case Lower_Ab_Right => assert ToArea("Lower_Ab_Right") == Some(AreaFlag.Lower_Ab_Right);
    case Left_All => assert ToArea("Left_All") == Some(AreaFlag.Left_All);
    case Right_All => assert ToArea("Right_All") == Some(AreaFlag.Right_All);
    case All_Areas => assert ToArea("All_Areas") == Some(AreaFlag.All_Areas);
    case Forearm_Both => assert ToArea("Forearm_Both") == Some(AreaFlag.Forearm_Both);
    case Upper_Arm_Both => assert ToArea("Upper_Arm_Both") == Some(AreaFlag.Upper_Arm_Both);
    case Shoulder_Both => assert ToArea("Shoulder_Both") == Some(AreaFlag.Shoulder_Both);
    case Back_Both => assert ToArea("Back_Both") == Some(AreaFlag.Back_Both);
    case Chest_Both => assert ToArea("Chest_Both") == Some(AreaFlag.Chest_Both);
    case Upper_Ab_Both => assert ToArea("Upper_Ab_Both") == Some(AreaFlag.Upper_Ab_Both);
    case Mid_Ab_Both => assert ToArea("Mid_Ab_Both") == Some(AreaFlag.Mid_Ab_Both);
    case Lower_Ab_Both => assert ToArea("Lower_Ab_Both") == Some(AreaFlag.Lower_Ab_Both);
  }


  // ---- Effect families (`init_familymap`): name on the left, code on the right

  /** `ToEffectFamily(string)`: the code of a named effect family; `None` where `at` throws. */
  function ToEffectFamily(s: string): (r: Option<uint32>)
    ensures r.Some? ==> FamilyName(r.value) == Some(s)
  {
    if |s| == 3 then (
      if FamilyName(6) == Some(s) then Some(6) else None)
    else if |s| == 4 then (
      if s[3] == 'p' then (
        if FamilyName(1) == Some(s) then Some(1) else None)
      else (
        if s[0] == 'b' then (
          if FamilyName(2) == Some(s) then Some(2) else None)
        else (
          if FamilyName(5) == Some(s) then Some(5) else None)))
    else if |s| == 5 then (
      if s[4] == 'k' then (
        if FamilyName(3) == Some(s) then Some(3) else None)
      else (
        if FamilyName(8) == Some(s) then Some(8) else None))
    else if |s| == 9 then (
      if FamilyName(666) == Some(s) then Some(666) else None)
    else if |s| == 10 then (
      if FamilyName(11) == Some(s) then Some(11) else None)
    else if |s| == 11 then (
      if s[10] == 'p' then (
        if FamilyName(9) == Some(s) then Some(9) else None)
      else (
        if FamilyName(10) == Some(s) then Some(10) else None))
    else if |s| == 12 then (
      if s[3] == 'b' then (
        if FamilyName(4) == Some(s) then Some(4) else None)
      else (
        if FamilyName(16) == Some(s) then Some(16) else None))
    else if |s| == 14 then (
      if FamilyName(15) == Some(s) then Some(15) else None)
    else if |s| == 16 then (
      if FamilyName(14) == Some(s) then Some(14) else None)
    else if |s| == 18 then (
      if FamilyName(12) == Some(s) then Some(12) else None)
    else if |s| == 22 then (
      if FamilyName(7) == Some(s) then Some(7) else None)
    else if |s| == 23 then (
      if FamilyName(13) == Some(s) then Some(13) else None)
    else None
  }

  /** `ToString(uint32_t)`: the name of an effect family code; `None` where `at` throws. */
  function FamilyName(code: uint32): Option<string>
  {
    if code == 1 then Some("bump") else
    if code == 2 then Some("buzz") else
    if code == 3 then Some("click") else
    if code == 4 then Some("double_click") else
    if code == 5 then Some("fuzz") else
    if code == 6 then Some("hum") else
    if code == 7 then Some("long_double_sharp_tick") else
    if code == 8 then Some("pulse") else
    if code == 9 then Some("pulse_sharp") else
    if code == 10 then Some("sharp_click") else
    if code == 11 then Some("sharp_tick") else
    if code == 12 then Some("short_double_click") else
    if code == 13 then Some("short_double_sharp_tick") else
    if code == 14 then Some("transition_click") else
    if code == 15 then Some("transition_hum") else
    if code == 16 then Some("triple_click") else
    if code == 666 then Some("doom_buzz") else
    None
  }

  /** The family table is a bimap: `FamilyName` inverts `ToEffectFamily`. */
  lemma FamilyRoundTrip(code: uint32, s: string)
    ensures FamilyName(code) == Some(s) <==> ToEffectFamily(s) == Some(code)
  {
    if FamilyName(code) == Some(s) {
      if code == 1 { assert ToEffectFamily("bump") == Some(1);
      } else if code == 2 { assert ToEffectFamily("buzz") == Some(2);
      } else if code == 3 { assert ToEffectFamily("click") == Some(3);
      } else if code == 4 { assert ToEffectFamily("double_click") == Some(4);
      } else if code == 5 { assert ToEffectFamily("fuzz") == Some(5);
      } else if code == 6 { assert ToEffectFamily("hum") == Some(6);
      } else if code == 7 { assert ToEffectFamily("long_double_sharp_tick") == Some(7);
      } else if code == 8 { assert ToEffectFamily("pulse") == Some(8);
      } else if code == 9 { assert ToEffectFamily("pulse_sharp") == Some(9);
      } else if code == 10 { assert ToEffectFamily("sharp_click") == Some(10);
      } else if code == 11 { assert ToEffectFamily("sharp_tick") == Some(11);
      } else if code == 12 { assert ToEffectFamily("short_double_click") == Some(12);
      } else if code == 13 { assert ToEffectFamily("short_double_sharp_tick") == Some(13);
      } else if code == 14 { assert ToEffectFamily("transition_click") == Some(14);
      } else if code == 15 { assert ToEffectFamily("transition_hum") == Some(15);
      } else if code == 16 { assert ToEffectFamily("triple_click") == Some(16);
      } else if code == 666 { assert ToEffectFamily("doom_buzz") == Some(666);
      }
    }
  }

  // ---- Location to area (`init_locarea_map`) and region names (`init_regions`)

  /** `ToArea(Location)`: the area flag of a location. Every location maps to the
      area of the same name, except that the upper-back locations map to the back flags. */
  function LocationToArea(l: Location): (a: AreaFlag)
    ensures l != Location.Upper_Back_Left && l != Location.Upper_Back_Right ==> AreaName(a) == LocationName(l)
    ensures l == Location.Upper_Back_Left ==> a == AreaFlag.Back_Left
    ensures l == Location.Upper_Back_Right ==> a == AreaFlag.Back_Right
  {
    match l
    case Forearm_Left => AreaFlag.Forearm_Left
    case Upper_Arm_Left => AreaFlag.Upper_Arm_Left
    case Shoulder_Left => AreaFlag.Shoulder_Left
    case Upper_Back_Left => AreaFlag.Back_Left
    case Chest_Left => AreaFlag.Chest_Left
    case Upper_Ab_Left => AreaFlag.Upper_Ab_Left
    case Mid_Ab_Left => AreaFlag.Mid_Ab_Left
    case Lower_Ab_Left => AreaFlag.Lower_Ab_Left
    case Forearm_Right => AreaFlag.Forearm_Right
    case Upper_Arm_Right => AreaFlag.Upper_Arm_Right
    case Shoulder_Right => AreaFlag.Shoulder_Right
    case Upper_Back_Right => AreaFlag.Back_Right
    case Chest_Right => AreaFlag.Chest_Right
    case Upper_Ab_Right => AreaFlag.Upper_Ab_Right
    case Mid_Ab_Right => AreaFlag.Mid_Ab_Right
    case Lower_Ab_Right => AreaFlag.Lower_Ab_Right
  }

  /** `ToRegionString(AreaFlag)`: the region name of a single-zone flag; `None` where `at` throws. */
  function RegionName(a: AreaFlag): Option<string>
  {
    match a
    case Back_Left => Some("left_back")
    case Back_Right => Some("right_back")
    case Shoulder_Left => Some("left_shoulder")
    case Shoulder_Right => Some("right_shoulder")
    case Upper_Arm_Left => Some("left_upper_arm")
    case Upper_Arm_Right => Some("right_upper_arm")
    case Forearm_Left => Some("left_forearm")
    case Forearm_Right => Some("right_forearm")
    case Chest_Left => Some("left_upper_chest")
    case Chest_Right => Some("right_upper_chest")
    case Upper_Ab_Left => Some("left_upper_ab")
    case Upper_Ab_Right => Some("right_upper_ab")
    case Mid_Ab_Left => Some("left_mid_ab")
    case Mid_Ab_Right => Some("right_mid_ab")
    case Lower_Ab_Left => Some("left_lower_ab")
    case Lower_Ab_Right => Some("right_lower_ab")
    case _ => None
  }

  /** Region names exist exactly for the flags that some location maps to:
      the sixteen single zones, never `NoArea` or a composite flag such as `Left_All`. */
  lemma RegionNamesAreSingleZones(a: AreaFlag)
    ensures RegionName(a).Some? <==> exists l :: LocationToArea(l) == a
  {
    if RegionName(a).Some? {
      var l :=
        match a
        case Back_Left => Location.Upper_Back_Left
        case Back_Right => Location.Upper_Back_Right
        case Shoulder_Left => Location.Shoulder_Left
        case Shoulder_Right => Location.Shoulder_Right
        case Upper_Arm_Left => Location.Upper_Arm_Left
        case Upper_Arm_Right => Location.Upper_Arm_Right
        case Forearm_Left => Location.Forearm_Left
        case Forearm_Right => Location.Forearm_Right
        case Chest_Left => Location.Chest_Left
        case Chest_Right => Location.Chest_Right
        case Upper_Ab_Left => Location.Upper_Ab_Left
        case Upper_Ab_Right => Location.Upper_Ab_Right
        case Mid_Ab_Left => Location.Mid_Ab_Left
        case Mid_Ab_Right => Location.Mid_Ab_Right
        case Lower_Ab_Left => Location.Lower_Ab_Left
        case Lower_Ab_Right => Location.Lower_Ab_Right
        case _ => Location.Chest_Left;
      assert LocationToArea(l) == a;
    }
  }
}
