// The body of the agent: five need tanks that decay with elapsed minutes, are
// pushed up or down by stimuli, and are always clamped back to [0, 100].

module Soma {
  import opened Util
  import opened Types

  // ---------------------------------------------------------------- tank table

  function SetPoint(t: Tank): real
  {
    match t
    case Energia => 100.0
    case Integridad => 100.0
    case Afiliacion => 70.0
    case Certeza => 80.0
    case Competencia => 75.0
  }

  /** Loss per elapsed minute. */
  function DecayRate(t: Tank): real
  {
    match t
    case Energia => 0.5
    case Integridad => 0.1
    case Afiliacion => 0.3
    case Certeza => 0.2
    case Competencia => 0.1
  }

  function CriticalThreshold(t: Tank): real
  {
    match t
    case Energia => 20.0
    case Integridad => 30.0
    case Afiliacion => 25.0
    case Certeza => 30.0
    case Competencia => 25.0
  }

  const ActionCost: real := 2.0
  const DamageFactor: real := 15.0
  const BoostFactor: real := 10.0
  const AmbiguityDamage: real := 10.0
  const SuccessBoost: real := 8.0
  const FailureDamage: real := 12.0

  // ---------------------------------------------------------------- specification

  predicate InRange(l: Levels)
  {
    forall t :: 0.0 <= l.Get(t) <= 100.0
  }

  /** The effect of `_clamp`: every tank forced into [0, 100]. */
  function Clamped(l: Levels): (r: Levels)
    ensures InRange(r)
    ensures forall t :: r.Get(t) == Clamp(l.Get(t), 0.0, 100.0)
    ensures InRange(l) ==> r == l
  {
    assert InRange(l) ==>
      (&& 0.0 <= l.Get(Energia) <= 100.0 && 0.0 <= l.Get(Integridad) <= 100.0
       && 0.0 <= l.Get(Afiliacion) <= 100.0 && 0.0 <= l.Get(Certeza) <= 100.0
       && 0.0 <= l.Get(Competencia) <= 100.0);
    Levels(Clamp(l.energia, 0.0, 100.0), Clamp(l.integridad, 0.0, 100.0), Clamp(l.afiliacion, 0.0, 100.0),
           Clamp(l.certeza, 0.0, 100.0), Clamp(l.competencia, 0.0, 100.0))
  }

  /** Every tank lowered by its decay rate times the elapsed minutes, before clamping. */
  function Decayed(l: Levels, minutes: real): (r: Levels)
    ensures forall t :: r.Get(t) == l.Get(t) - DecayRate(t) * minutes
  {
    Levels(l.energia - DecayRate(Energia) * minutes, l.integridad - DecayRate(Integridad) * minutes,
           l.afiliacion - DecayRate(Afiliacion) * minutes, l.certeza - DecayRate(Certeza) * minutes,
           l.competencia - DecayRate(Competencia) * minutes)
  }

  /** Minutes between two millisecond clock readings. */
  function Minutes(from: int, to: int): real
  {
    (to - from) as real / 60000.0
  }

  datatype Urgency = Critical | High | Medium | Low

  function UrgencyOf(level: real, threshold: real): (u: Urgency)
    ensures u == Critical <==> level < threshold
    ensures u == High <==> threshold <= level < threshold + 20.0
    ensures u == Medium <==> threshold + 20.0 <= level < threshold + 40.0
    ensures u == Low <==> threshold + 40.0 <= level
  {
    if level < threshold then Critical
    else if level < threshold + 20.0 then High
    else if level < threshold + 40.0 then Medium
    else Low
  }

  function Deficit(l: Levels, t: Tank): real
  {
    SetPoint(t) - l.Get(t)
  }

  datatype DominantNeed = DominantNeed(need: Tank, level: real, deficit: real, urgency: Urgency)

  /** `d` is the first tank, in declaration order, with the largest deficit. */
  ghost predicate IsDominant(d: DominantNeed, l: Levels)
  {
    && d.level == l.Get(d.need)
    && d.deficit == Deficit(l, d.need)
    && (forall t :: Deficit(l, t) <= d.deficit)
    && (forall t :: TankIndex(t) < TankIndex(d.need) ==> Deficit(l, t) < d.deficit)
    && d.urgency == UrgencyOf(d.level, CriticalThreshold(d.need))
  }

  /** `c` lists exactly the tanks below their critical threshold, in declaration order. */
  ghost predicate IsCriticalList(c: seq<Tank>, l: Levels)
  {
    && (forall t :: t in c <==> l.Get(t) < CriticalThreshold(t))
    && (forall i, j :: 0 <= i < j < |c| ==> TankIndex(c[i]) < TankIndex(c[j]))
  }

  datatype SomaState = SomaState(tanks: Levels, dominant: DominantNeed, criticalNeeds: seq<Tank>)

  ghost predicate Describes(st: SomaState, l: Levels)
  {
    st.tanks == l && IsDominant(st.dominant, l) && IsCriticalList(st.criticalNeeds, l)
  }

  /** Optional initial levels; a missing one (`??`) takes the default. */
  datatype InitialLevels = InitialLevels(
    energia: Option<real>, integridad: Option<real>, afiliacion: Option<real>,
    certeza: Option<real>, competencia: Option<real>)

  /** Persisted body state; a missing or zero `lastUpdate` is ignored. */
  datatype Snapshot = Snapshot(tanks: Option<Levels>, lastUpdate: Option<int>)

  // ---------------------------------------------------------------- lemmas

  /** With non-negative elapsed time a tick never raises a non-negative tank. */
  lemma DecayNeverRaises(l: Levels, minutes: real)
    requires minutes >= 0.0
    requires forall t :: l.Get(t) >= 0.0
    ensures forall t :: Clamped(Decayed(l, minutes)).Get(t) <= l.Get(t)
  {
    forall t ensures Clamped(Decayed(l, minutes)).Get(t) <= l.Get(t) {
      assert DecayRate(t) >= 0.0;
      assert DecayRate(t) * minutes >= 0.0;
    }
  }

  /** The dominant need is unique: the first maximum cannot be two tanks. */
  lemma {:induction false} DominantUnique(d1: DominantNeed, d2: DominantNeed, l: Levels)
    requires IsDominant(d1, l) && IsDominant(d2, l)
    ensures d1 == d2
  {
    assert Deficit(l, d2.need) <= d1.deficit && Deficit(l, d1.need) <= d2.deficit;
    assert TankOrder[TankIndex(d1.need)] == d1.need && TankOrder[TankIndex(d2.need)] == d2.need;
  }

  /** A tank is critical exactly when its dominant-need urgency would be critical. */
  lemma CriticalListMatchesUrgency(c: seq<Tank>, l: Levels, t: Tank)
    requires IsCriticalList(c, l)
    ensures t in c <==> UrgencyOf(l.Get(t), CriticalThreshold(t)) == Critical
  {
  }

  // ---------------------------------------------------------------- the body

  class Soma {
    var tanks: Levels
    /** Millisecond clock reading of the last tick. */
    var lastUpdate: int

    constructor (init: InitialLevels, now: int)
      ensures tanks == Levels(init.energia.GetOr(100.0), init.integridad.GetOr(100.0),
                              init.afiliacion.GetOr(50.0), init.certeza.GetOr(70.0),
                              init.competencia.GetOr(60.0))
      ensures lastUpdate == now
    {
      tanks := Levels(init.energia.GetOr(100.0), init.integridad.GetOr(100.0),
                      init.afiliacion.GetOr(50.0), init.certeza.GetOr(70.0),
                      init.competencia.GetOr(60.0));
      lastUpdate := now;
    }

    /** `_clamp`: overwrite each tank with its value clamped to [0, 100]. */
    method ClampTanks()
      modifies this
      ensures tanks == Clamped(old(tanks))
      ensures lastUpdate == old(lastUpdate)
    {
      var i := 0;
      while i < |TankOrder|
        invariant 0 <= i <= |TankOrder|
        invariant lastUpdate == old(lastUpdate)
        invariant forall t :: tanks.Get(t) ==
                    if TankIndex(t) < i then Clamp(old(tanks).Get(t), 0.0, 100.0) else old(tanks).Get(t)
      {
        var t := TankOrder[i];
        tanks := tanks.Set(t, Clamp(tanks.Get(t), 0.0, 100.0));
        i := i + 1;
      }
      LevelsExt(tanks, Clamped(old(tanks)));
    }

    /** The decay loop of `tick`: each tank loses its rate times the elapsed minutes. */
    method DecayTanks(elapsed: real)
      modifies this
      ensures tanks == Decayed(old(tanks), elapsed)
      ensures lastUpdate == old(lastUpdate)
    {
      var i := 0;
      while i < |TankOrder|
        invariant 0 <= i <= |TankOrder|
        invariant lastUpdate == old(lastUpdate)
        invariant forall t :: tanks.Get(t) ==
                    if TankIndex(t) < i then old(tanks).Get(t) - DecayRate(t) * elapsed else old(tanks).Get(t)
      {
        var t := TankOrder[i];
        tanks := tanks.Set(t, tanks.Get(t) - DecayRate(t) * elapsed);
        i := i + 1;
      }
      LevelsExt(tanks, Decayed(old(tanks), elapsed));
    }

    /** The metabolic tick: every tank decays by its rate times the elapsed minutes. */
    method Tick(now: int) returns (state: SomaState)
      modifies this
      ensures lastUpdate == now
      ensures tanks == Clamped(Decayed(old(tanks), Minutes(old(lastUpdate), now)))
      ensures InRange(tanks)
      ensures Describes(state, tanks)
    {
      var elapsed := Minutes(lastUpdate, now);
      lastUpdate := now;
      DecayTanks(elapsed);
      ClampTanks();
      state := GetState();
    }

    /** Every response costs `ActionCost` energy. */
    method ConsumeAction()
      modifies this
      ensures tanks == Clamped(old(tanks).(energia := old(tanks).energia - ActionCost))
      ensures lastUpdate == old(lastUpdate)
      ensures InRange(old(tanks)) ==> forall t :: t != Energia ==> tanks.Get(t) == old(tanks).Get(t)
    {
      tanks := tanks.(energia := tanks.energia - ActionCost);
      ClampTanks();
    }

    /** An insult, attack or rejection lowers integridad by 15·i and afiliacion by 5·i. */
    method ReceiveDamage(intensity: real := 0.5)
      modifies this
      ensures tanks == Clamped(old(tanks).(integridad := old(tanks).integridad - DamageFactor * intensity,
                                           afiliacion := old(tanks).afiliacion - 5.0 * intensity))
      ensures lastUpdate == old(lastUpdate)
      ensures InRange(old(tanks)) ==>
                forall t :: t != Integridad && t != Afiliacion ==> tanks.Get(t) == old(tanks).Get(t)
    {
      tanks := tanks.(integridad := tanks.integridad - DamageFactor * intensity);
      tanks := tanks.(afiliacion := tanks.afiliacion - 5.0 * intensity);
      ClampTanks();
    }

    /** Praise or validation raises afiliacion by 10·i and integridad by 3·i. */
    method ReceiveAffection(intensity: real := 0.5)
      modifies this
      ensures tanks == Clamped(old(tanks).(afiliacion := old(tanks).afiliacion + BoostFactor * intensity,
                                           integridad := old(tanks).integridad + 3.0 * intensity))
      ensures lastUpdate == old(lastUpdate)
      ensures InRange(old(tanks)) ==>
                forall t :: t != Integridad && t != Afiliacion ==> tanks.Get(t) == old(tanks).Get(t)
    {
      tanks := tanks.(afiliacion := tanks.afiliacion + BoostFactor * intensity);
      tanks := tanks.(integridad := tanks.integridad + 3.0 * intensity);
      ClampTanks();
    }

    /** Ambiguity lowers certeza by 10·i. */
    method ExperienceConfusion(intensity: real := 0.5)
      modifies this
      ensures tanks == Clamped(old(tanks).(certeza := old(tanks).certeza - AmbiguityDamage * intensity))
      ensures lastUpdate == old(lastUpdate)
      ensures InRange(old(tanks)) ==> forall t :: t != Certeza ==> tanks.Get(t) == old(tanks).Get(t)
    {
      tanks := tanks.(certeza := tanks.certeza - AmbiguityDamage * intensity);
      ClampTanks();
    }

    /** Success adds 8 competencia and 5 certeza; failure takes 12 and 3. */
    method ExperienceOutcome(success: bool)
      modifies this
      ensures success ==> tanks == Clamped(old(tanks).(competencia := old(tanks).competencia + SuccessBoost,
                                                       certeza := old(tanks).certeza + 5.0))
      ensures !success ==> tanks == Clamped(old(tanks).(competencia := old(tanks).competencia - FailureDamage,
                                                        certeza := old(tanks).certeza - 3.0))
      ensures lastUpdate == old(lastUpdate)
      ensures InRange(old(tanks)) ==>
                forall t :: t != Competencia && t != Certeza ==> tanks.Get(t) == old(tanks).Get(t)
    {
      if success {
        tanks := tanks.(competencia := tanks.competencia + SuccessBoost);
        tanks := tanks.(certeza := tanks.certeza + 5.0);
      } else {
        tanks := tanks.(competencia := tanks.competencia - FailureDamage);
        tanks := tanks.(certeza := tanks.certeza - 3.0);
      }
      ClampTanks();
    }

    /** Rest refills energia by `amount`. */
    method Recharge(amount: real := 20.0)
      modifies this
      ensures tanks == Clamped(old(tanks).(energia := old(tanks).energia + amount))
      ensures lastUpdate == old(lastUpdate)
      ensures InRange(old(tanks)) ==> forall t :: t != Energia ==> tanks.Get(t) == old(tanks).Get(t)
    {
      tanks := tanks.(energia := tanks.energia + amount);
      ClampTanks();
    }

    /** Winner-takes-all: the first tank with the largest deficit, with its urgency. */
    method GetDominantDrive() returns (d: DominantNeed)
      ensures IsDominant(d, tanks)
    {
      // `maxDeficit` starts at -Infinity, so the first tank always wins.
      var maxDeficit := Deficit(tanks, TankOrder[0]);
      var dominant := TankOrder[0];
      var i := 1;
      while i < |TankOrder|
        invariant 1 <= i <= |TankOrder|
        invariant TankIndex(dominant) < i
        invariant maxDeficit == Deficit(tanks, dominant)
        invariant forall t :: TankIndex(t) < i ==> Deficit(tanks, t) <= maxDeficit
        invariant forall t :: TankIndex(t) < TankIndex(dominant) ==> Deficit(tanks, t) < maxDeficit
      {
        var t := TankOrder[i];
        var deficit := Deficit(tanks, t);
        if deficit > maxDeficit {
          maxDeficit := deficit;
          dominant := t;
        }
        i := i + 1;
      }
      var level := tanks.Get(dominant);
      d := DominantNeed(dominant, level, maxDeficit, UrgencyOf(level, CriticalThreshold(dominant)));
    }

    /** The tanks below their critical threshold, in declaration order. */
    method GetCriticalNeeds() returns (critical: seq<Tank>)
      ensures IsCriticalList(critical, tanks)
    {
      critical := [];
      var i := 0;
      while i < |TankOrder|
        invariant 0 <= i <= |TankOrder|
        invariant forall t :: t in critical <==> TankIndex(t) < i && tanks.Get(t) < CriticalThreshold(t)
        invariant forall k :: 0 <= k < |critical| ==> TankIndex(critical[k]) < i
        invariant forall k, j :: 0 <= k < j < |critical| ==> TankIndex(critical[k]) < TankIndex(critical[j])
      {
        var t := TankOrder[i];
        if tanks.Get(t) < CriticalThreshold(t) {
          critical := critical + [t];
        }
        i := i + 1;
      }
    }

    method GetState() returns (state: SomaState)
      ensures Describes(state, tanks)
    {
      var d := GetDominantDrive();
      var c := GetCriticalNeeds();
      state := SomaState(tanks, d, c);
    }

    /** Restores persisted tanks and clock, then applies the elapsed time. */
    method Restore(data: Snapshot, now: int)
      modifies this
      ensures lastUpdate == now
      ensures InRange(tanks)
      ensures tanks == Clamped(Decayed(data.tanks.GetOr(old(tanks)),
                Minutes(if data.lastUpdate.Some? && data.lastUpdate.value != 0
                        then data.lastUpdate.value else old(lastUpdate), now)))
    {
      if data.tanks.Some? {
        tanks := data.tanks.value;
      }
      if data.lastUpdate.Some? && data.lastUpdate.value != 0 {
        lastUpdate := data.lastUpdate.value;
      }
      var _ := Tick(now);
    }
  }
}
