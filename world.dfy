// The world simulator's pure helpers: the hour, weekday and month buckets,
// the daily routine, and the physiological impact of the moment and the
// weather. The clock and the weather service are parameters; the prompt
// text, the narrator and the location data are not modelled.
module WorldSimulator {
  import opened Util
  import Zeitgeist

  /** The weather fields the helpers read. */
  datatype Weather = Weather(temperature: real, conditionLocal: string)

  datatype Period = Madrugada | Manana | Mediodia | Tarde | Atardecer | Noche

  datatype Season = Verano | Otono | Invierno | Primavera

  datatype RoutineId =
    | Prepare | Commute | Work | CommuteBack | Relax | NightDiscord | Sleep
    | SleepWeekend | Weekend | NightWeekend

  datatype PressureLevel = VeryHigh | MediumPressure | HighPressure | LowPressure

  datatype Comfort = NeutralComfort | Cold | Cool | Hot | Pleasant

  datatype DrainLevel = HighDrain | CriticalDrain | MediumDrain | LowDrain

  /** An entry of the social affordances: an available action, or a constraint. */
  datatype Affordance = Discord | Familia | Silencio

  datatype ArousalBand = VeryLow | LowMedium | MediumHigh | VeryHighArousal

  /** `_calculatePhysiologicalImpact`. */
  datatype PhysiologicalImpact = PhysiologicalImpact(
    circadianPressure: PressureLevel,
    thermalComfort: Comfort,
    energyDrain: DrainLevel,
    socialAffordances: seq<Affordance>,
    arousalModulation: real)

  /** `_getTemporalContext`, without the formatted date and time strings. */
  datatype Temporal = Temporal(hour: int, dayOfWeek: int, isWeekend: bool, period: Period, season: Season)

  // ---------------------------------------------------------------------------
  // Buckets
  // ---------------------------------------------------------------------------

  /** `_getPeriodOfDay`: the first range that holds the hour; any other hour is night. */
  function PeriodOfDay(hour: int): Period
  {
    if 0 <= hour < 6 then Madrugada
    else if 6 <= hour < 12 then Manana
    else if 12 <= hour < 14 then Mediodia
    else if 14 <= hour < 18 then Tarde
    else if 18 <= hour < 21 then Atardecer
    else Noche
  }

  /** The periods in the order of the day, and the hours at which each after the first begins. */
  const PeriodOrder: seq<Period> := [Madrugada, Manana, Mediodia, Tarde, Atardecer, Noche]
  const PeriodStarts: seq<int> := [6, 12, 14, 18, 21]

  /** How many of the boundaries the hour has reached. */
  function Reached(starts: seq<int>, hour: int): (n: nat)
    ensures n <= |starts|
  {
    if starts == [] then 0
    else Reached(starts[..|starts| - 1], hour) + (if starts[|starts| - 1] <= hour then 1 else 0)
  }

  /**
   * Every hour of the day lies in exactly one period: the one after as many
   * boundaries (6, 12, 14, 18, 21) as the hour has reached.
   */
  lemma PeriodByBoundaries(hour: int)
    requires 0 <= hour <= 23
    ensures PeriodOfDay(hour) == PeriodOrder[Reached(PeriodStarts, hour)]
  {
    var one := if 6 <= hour then 1 else 0;
    assert Reached([6], hour) == one by {
      assert [6][..0] == [];
    }
    assert Reached([6, 12], hour) == one + (if 12 <= hour then 1 else 0) by {
      assert [6, 12][..1] == [6];
    }
    assert Reached([6, 12, 14], hour) == Reached([6, 12], hour) + (if 14 <= hour then 1 else 0) by {
      assert [6, 12, 14][..2] == [6, 12];
    }
    assert Reached([6, 12, 14, 18], hour) == Reached([6, 12, 14], hour) + (if 18 <= hour then 1 else 0) by {
      assert [6, 12, 14, 18][..3] == [6, 12, 14];
    }
    assert Reached(PeriodStarts, hour) == Reached([6, 12, 14, 18], hour) + (if 21 <= hour then 1 else 0) by {
      assert PeriodStarts[..4] == [6, 12, 14, 18];
    }
  }

  /** `_getSeason`: southern-hemisphere seasons by month 1-12; any other month is spring. */
  function SeasonOf(month: int): (s: Season)
    ensures 1 <= month <= 12 ==>
      && (s == Verano <==> month in {12, 1, 2})
      && (s == Otono <==> 3 <= month <= 5)
      && (s == Invierno <==> 6 <= month <= 8)
      && (s == Primavera <==> 9 <= month <= 11)
  {
    if month >= 12 || month <= 2 then Verano
    else if 3 <= month <= 5 then Otono
    else if 6 <= month <= 8 then Invierno
    else Primavera
  }

  /** `isWeekend`: Sunday or Saturday. */
  predicate IsWeekend(dayOfWeek: int)
  {
    dayOfWeek == 0 || dayOfWeek == 6
  }

  /** The routine's weekday test: Monday to Friday. */
  predicate IsWeekday(dayOfWeek: int)
  {
    1 <= dayOfWeek <= 5
  }

  /** On every real weekday number the two tests are each other's negation. */
  lemma WeekendIsNotWeekday(dayOfWeek: int)
    requires 0 <= dayOfWeek <= 6
    ensures IsWeekend(dayOfWeek) <==> !IsWeekday(dayOfWeek)
  {
  }

  /** `_getTemporalContext`, from the hour, the weekday and the zero-based month of the date. */
  function TemporalOf(hour: int, dayOfWeek: int, monthIndex: int): (t: Temporal)
    ensures t.isWeekend <==> dayOfWeek in {0, 6}
    ensures t.season == SeasonOf(monthIndex + 1) && t.period == PeriodOfDay(hour)
  {
    Temporal(hour, dayOfWeek, IsWeekend(dayOfWeek), PeriodOfDay(hour), SeasonOf(monthIndex + 1))
  }

  // ---------------------------------------------------------------------------
  // The routine
  // ---------------------------------------------------------------------------

  predicate IsWeekdayRoutine(r: RoutineId)
  {
    r in {Prepare, Commute, Work, CommuteBack, Relax, NightDiscord, Sleep}
  }

  /** `_getCurrentRoutine`: the weekday schedule from Monday to Friday, else the weekend one. */
  function RoutineOf(hour: int, dayOfWeek: int): (r: RoutineId)
    ensures IsWeekday(dayOfWeek) <==> IsWeekdayRoutine(r)
    ensures r == Prepare <==> IsWeekday(dayOfWeek) && 5 <= hour < 6
    ensures r == Commute <==> IsWeekday(dayOfWeek) && 6 <= hour < 7
    ensures r == Work <==> IsWeekday(dayOfWeek) && 7 <= hour < 18
    ensures r == CommuteBack <==> IsWeekday(dayOfWeek) && 18 <= hour < 19
    ensures r == Relax <==> IsWeekday(dayOfWeek) && 19 <= hour < 22
    ensures r == NightDiscord <==> IsWeekday(dayOfWeek) && (hour >= 22 || hour < 1)
    ensures r == Sleep <==> IsWeekday(dayOfWeek) && 1 <= hour < 5
    ensures r == SleepWeekend <==> !IsWeekday(dayOfWeek) && 1 <= hour < 10
    ensures r == Weekend <==> !IsWeekday(dayOfWeek) && 10 <= hour < 22
    ensures r == NightWeekend <==> !IsWeekday(dayOfWeek) && (hour >= 22 || hour < 1)
  {
    if IsWeekday(dayOfWeek) && 5 <= hour < 6 then Prepare
    else if IsWeekday(dayOfWeek) && 6 <= hour < 7 then Commute
    else if IsWeekday(dayOfWeek) && 7 <= hour < 18 then Work
    else if IsWeekday(dayOfWeek) && 18 <= hour < 19 then CommuteBack
    else if IsWeekday(dayOfWeek) && 19 <= hour < 22 then Relax
    else if IsWeekday(dayOfWeek) && (hour >= 22 || hour < 1) then NightDiscord
    else if IsWeekday(dayOfWeek) && 1 <= hour < 5 then Sleep
    else if 1 <= hour < 10 then SleepWeekend
    else if 10 <= hour < 22 then Weekend
    else NightWeekend
  }

  /** The activity and context `_formatRoutine` records for each routine. */
  function RoutineText(r: RoutineId): (string, string)
  {
    match r
    case Prepare => ("Preparándose para el trabajo", "Alarma sonó a las 5:30, preparándose")
    case Commute => ("Van de la empresa lo busca", "Viajando al aeropuerto")
    case Work => ("Trabajando en el aeropuerto", "Jornada laboral de 11 horas")
    case CommuteBack => ("Regresando a casa", "Van lo deja en casa")
    case Relax => ("Tiempo libre en casa", "Viendo series, Discord, comiendo")
    case NightDiscord => ("Activo en Discord", "Jugando o chateando con amigos")
    case Sleep => ("Durmiendo", "Debería estar durmiendo")
    case SleepWeekend => ("Durmiendo (sin alarma)", "Fin de semana, duerme hasta tarde")
    case Weekend => ("Día libre", "Puede estar con Chinita, jugando, o saliendo")
    case NightWeekend => ("Noche de fin de semana", "Más flexible, probablemente despierto")
  }

  // ---------------------------------------------------------------------------
  // The physiological impact
  // ---------------------------------------------------------------------------

  /** `_getCircadianPressure`. */
  function CircadianPressure(hour: int): (p: PressureLevel)
    ensures 0 <= hour <= 23 ==>
      && (p == VeryHigh <==> 1 <= hour < 6)
      && (p == MediumPressure <==> 6 <= hour < 9)
      && (p == HighPressure <==> hour >= 22 || hour == 0)
      && (p == LowPressure <==> 9 <= hour < 22)
  {
    if 1 <= hour < 6 then VeryHigh
    else if 6 <= hour < 9 then MediumPressure
    else if hour >= 22 || hour == 0 then HighPressure
    else LowPressure
  }

  /** `_getThermalComfort`: neutral without weather, then by temperature. */
  function ThermalComfort(weather: Option<Weather>): (c: Comfort)
    ensures c == NeutralComfort <==> weather.None?
    ensures weather.Some? ==>
      var t := weather.value.temperature;
      && (c == Cold <==> t < 10.0)
      && (c == Cool <==> 10.0 <= t < 15.0)
      && (c == Hot <==> t > 28.0)
      && (c == Pleasant <==> 15.0 <= t <= 28.0)
  {
    if weather.None? then NeutralComfort
    else if weather.value.temperature < 10.0 then Cold
    else if weather.value.temperature < 15.0 then Cool
    else if weather.value.temperature > 28.0 then Hot
    else Pleasant
  }

  /** `_getEnergyDrain`: the work routine drains most, before any hour rule is consulted. */
  function EnergyDrain(hour: int, routine: Option<RoutineId>): (d: DrainLevel)
    ensures routine == Some(Work) ==> d == HighDrain
    ensures d == HighDrain <==> routine == Some(Work)
    ensures routine != Some(Work) ==>
      && (d == CriticalDrain <==> 1 <= hour < 6)
      && (d == MediumDrain <==> 18 <= hour < 22)
  {
    if routine == Some(Work) then HighDrain
    else if 1 <= hour < 6 then CriticalDrain
    else if 18 <= hour < 22 then MediumDrain
    else LowDrain
  }

  /** `_getSocialAffordances`: Discord at night, the family by day, silence at night unless it is a weekend event. */
  function SocialAffordances(hour: int, zeit: Zeitgeist.AmbientState): (a: seq<Affordance>)
    ensures Discord in a <==> hour >= 22 || hour < 6
    ensures Familia in a <==> 8 <= hour < 22
    ensures Silencio in a <==> (hour >= 23 || hour < 7) && zeit.eventName != Some("fin_de_semana")
    ensures |a| <= 2
    ensures forall i, j :: 0 <= i < j < |a| ==> a[i] != a[j]
  {
    (if hour >= 22 || hour < 6 then [Discord] else [])
    + (if 8 <= hour < 22 then [Familia] else [])
    + (if (hour >= 23 || hour < 7) && zeit.eventName != Some("fin_de_semana") then [Silencio] else [])
  }

  /** A rainy condition: the local condition mentions `lluvia`. */
  predicate Rainy(w: Weather)
  {
    Contains(w.conditionLocal, "lluvia")
  }

  /** The arousal before the clamp: 50, -30 in the small hours, +20 around noon, -10 in rain, +15 in heat. */
  function RawArousal(hour: int, weather: Option<Weather>): real
  {
    50.0 + (if 1 <= hour < 6 then -30.0 else 0.0) + (if 10 <= hour < 14 then 20.0 else 0.0)
    + (if weather.Some? && Rainy(weather.value) then -10.0 else 0.0)
    + (if weather.Some? && weather.value.temperature > 28.0 then 15.0 else 0.0)
  }

  /** `_getArousalLevel`: the raw arousal clamped to [0, 100]. */
  function ArousalOf(hour: int, weather: Option<Weather>): (a: real)
    ensures 0.0 <= a <= 100.0
  {
    Clamp(RawArousal(hour, weather), 0.0, 100.0)
  }

  /**
   * The clamp never bites: the arousal always lies in [10, 85] and equals
   * the raw sum, at its lowest in a rainy small hour and at its highest at a
   * hot noon.
   */
  lemma ArousalNeverClamped(hour: int, weather: Option<Weather>)
    ensures 10.0 <= ArousalOf(hour, weather) <= 85.0
    ensures ArousalOf(hour, weather) == RawArousal(hour, weather)
  {
  }

  /** `_getArousalLevel`, step by step. */
  method ArousalLevel(hour: int, weather: Option<Weather>) returns (arousal: real)
    ensures arousal == ArousalOf(hour, weather)
  {
    arousal := 50.0;
    if 1 <= hour < 6 {
      arousal := arousal - 30.0;
    }
    if 10 <= hour < 14 {
      arousal := arousal + 20.0;
    }
    if weather.Some? && Contains(weather.value.conditionLocal, "lluvia") {
      arousal := arousal - 10.0;
    }
    if weather.Some? && weather.value.temperature > 28.0 {
      arousal := arousal + 15.0;
    }
    arousal := Max(0.0, Min(100.0, arousal));
  }

  /** `_interpretArousal`: four bands with boundaries at 30, 50 and 70. */
  function InterpretArousal(a: real): (b: ArousalBand)
    ensures b == VeryLow <==> a < 30.0
    ensures b == LowMedium <==> 30.0 <= a < 50.0
    ensures b == MediumHigh <==> 50.0 <= a < 70.0
    ensures b == VeryHighArousal <==> a >= 70.0
  {
    if a < 30.0 then VeryLow
    else if a < 50.0 then LowMedium
    else if a < 70.0 then MediumHigh
    else VeryHighArousal
  }

  /** `_calculatePhysiologicalImpact`: every component from the same hour. */
  function PhysiologicalImpactOf(hour: int, weather: Option<Weather>, routine: Option<RoutineId>,
                                 zeit: Zeitgeist.AmbientState): (p: PhysiologicalImpact)
    ensures 0.0 <= p.arousalModulation <= 100.0
    ensures p.thermalComfort == NeutralComfort <==> weather.None?
  {
    PhysiologicalImpact(CircadianPressure(hour), ThermalComfort(weather), EnergyDrain(hour, routine),
                        SocialAffordances(hour, zeit), ArousalOf(hour, weather))
  }

  /**
   * On a working hour of a weekday the routine is work, so the energy drain
   * is high whatever the hour rules say.
   */
  lemma WorkdayDrainIsHigh(hour: int, dayOfWeek: int)
    requires IsWeekday(dayOfWeek) && 7 <= hour < 18
    ensures EnergyDrain(hour, Some(RoutineOf(hour, dayOfWeek))) == HighDrain
  {
  }
}
