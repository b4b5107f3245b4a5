// The primary process: the drive track turns tank deficits into drive
// proposals, the perception track charges the stimulus with affect and checks
// it against the primal repressions, and the defense track lets the superego
// censor each proposal and add proactive ones of its own.

module PrimaryProcess {
  import opened Util
  import opened Types
  import Soma
  import opened Superego
  import opened Evaluation

  // ---------------------------------------------------------------------------
  // Thing representatives
  // ---------------------------------------------------------------------------

  /** A word-less representative carrying an affective charge. */
  class ThingRepresentative {
    const id: string
    const source: string
    var cathexis: real
    var associations: seq<string>

    constructor (id: string, source: string)
      ensures this.id == id && this.source == source
      ensures cathexis == 0.0 && associations == []
    {
      this.id := id;
      this.source := source;
      cathexis := 0.0;
      associations := [];
    }

    method Invest(amount: real)
      modifies this
      ensures cathexis == old(cathexis) + amount
      ensures associations == old(associations)
    {
      cathexis := cathexis + amount;
    }

    /** Links another representative once; the association list never repeats an id. */
    method Associate(otherId: string)
      modifies this
      ensures associations == AddUnique(old(associations), otherId)
      ensures cathexis == old(cathexis)
    {
      if otherId !in associations {
        associations := associations + [otherId];
      }
    }
  }

  function Quota(p: Proposal): real
  {
    p.quotaOfAffect
  }

  // ---------------------------------------------------------------------------
  // Drive track
  // ---------------------------------------------------------------------------

  /** How a tank gives rise to a drive: below `threshold` it fires, below `critical` urgently. */
  datatype DriveSpec = DriveSpec(
    ptype: ProposalType, subtype: string, aim: string, obj: string, threshold: real, critical: Option<real>)

  /** The certainty tank has no drive; competence is never critical. */
  function SpecOf(t: Tank): Option<DriveSpec>
  {
    match t
    case Energia => Some(DriveSpec(SelfPreservation, "energy", "restore_energy", "rest", 70.0, Some(30.0)))
    case Integridad => Some(DriveSpec(SelfPreservation, "integrity", "protect_self", "safety", 80.0, Some(40.0)))
    case Afiliacion => Some(DriveSpec(Libidinal, "affiliation", "connect", "social_contact", 70.0, Some(25.0)))
    case Certeza => None
    case Competencia => Some(DriveSpec(Libidinal, "mastery", "demonstrate_ability", "achievement", 60.0, None))
  }

  predicate Active(l: Levels, t: Tank)
  {
    SpecOf(t).Some? && l.Get(t) < SpecOf(t).value.threshold
  }

  function DriveOf(l: Levels, t: Tank): Proposal
    requires SpecOf(t).Some?
  {
    var d := SpecOf(t).value;
    NewDrive(d.ptype, d.subtype, t, d.aim, d.obj, (100.0 - l.Get(t)) / 100.0,
             if d.critical.Some? && l.Get(t) < d.critical.value then CriticalDrive else NormalDrive)
  }

  function DriveIf(l: Levels, t: Tank): seq<Proposal>
  {
    if Active(l, t) then [DriveOf(l, t)] else []
  }

  /** The drives in the order the track checks the tanks, before sorting. */
  function DriveCandidates(l: Levels): seq<Proposal>
  {
    DriveIf(l, Energia) + DriveIf(l, Integridad) + DriveIf(l, Afiliacion) + DriveIf(l, Competencia)
  }

  datatype DriveState = DriveState(drives: seq<Proposal>, dominant: Option<Proposal>, hasConflict: bool,
                                   totalTension: real)

  function DriveStateFrom(ds: seq<Proposal>): DriveState
  {
    DriveState(ds,
               if ds == [] then None else Some(ds[0]),
               |ds| > 1 && Abs(ds[0].quotaOfAffect - ds[1].quotaOfAffect) < 0.15,
               Sum(ds, Quota))
  }

  /** The result of the drive track for the given tank levels. */
  function DriveStateOf(l: Levels): DriveState
  {
    DriveStateFrom(SortDesc(DriveCandidates(l), Quota))
  }

  lemma CandidatesShape(l: Levels)
    ensures var c := DriveCandidates(l);
      forall k :: 0 <= k < |c| ==>
        c[k].source.FromTank? && Active(l, c[k].source.tank) && c[k] == DriveOf(l, c[k].source.tank)
  {
  }

  /** Every sorted drive is the drive of an active tank. */
  lemma DrivesAreActive(l: Levels)
    ensures var ds := DriveStateOf(l).drives;
      forall k :: 0 <= k < |ds| ==>
        ds[k].source.FromTank? && Active(l, ds[k].source.tank) && ds[k] == DriveOf(l, ds[k].source.tank)
  {
    var c := DriveCandidates(l);
    var ds := DriveStateOf(l).drives;
    CandidatesShape(l);
    forall k | 0 <= k < |ds|
      ensures ds[k].source.FromTank? && Active(l, ds[k].source.tank) && ds[k] == DriveOf(l, ds[k].source.tank)
    {
      assert ds[k] in multiset(c);
    }
  }

  /** Every tank with a drive fires somewhere between 60 and 80. */
  lemma ThresholdRange(t: Tank)
    requires SpecOf(t).Some?
    ensures 60.0 <= SpecOf(t).value.threshold <= 80.0
  {
  }

  lemma ActiveInCandidates(l: Levels, t: Tank)
    requires Active(l, t)
    ensures DriveOf(l, t) in DriveCandidates(l)
  {
    var c := DriveCandidates(l);
    match t
    case Energia => assert c[0] == DriveOf(l, t);
    case Integridad => assert DriveIf(l, t) == [DriveOf(l, t)];
    case Afiliacion => assert DriveIf(l, t) == [DriveOf(l, t)];
    case Competencia => assert c[|c| - 1] == DriveOf(l, t);
  }

  lemma DriveForActiveTank(l: Levels, t: Tank)
    requires Active(l, t)
    ensures var ds := DriveStateOf(l).drives;
      exists k :: 0 <= k < |ds| && ds[k].source == FromTank(t)
  {
    ActiveInCandidates(l, t);
    SortKeepsMembers(DriveCandidates(l), DriveOf(l, t));
    var ds := DriveStateOf(l).drives;
    var k :| 0 <= k < |ds| && ds[k] == DriveOf(l, t);
  }

  lemma SortKeepsMembers(c: seq<Proposal>, x: Proposal)
    requires x in c
    ensures x in SortDesc(c, Quota)
  {
    assert x in multiset(c);
  }

  lemma ActiveTankForDrive(l: Levels, t: Tank, k: nat)
    requires var ds := DriveStateOf(l).drives; k < |ds| && ds[k].source == FromTank(t)
    ensures Active(l, t)
  {
    DrivesAreActive(l);
  }

  /**
   * A tank has a drive iff its level is under its threshold: energy and
   * affiliation under 70, integrity under 80, competence under 60; certainty never.
   */
  lemma DriveCoverage(l: Levels)
    ensures var ds := DriveStateOf(l).drives;
      forall t :: (exists k :: 0 <= k < |ds| && ds[k].source == FromTank(t)) <==> Active(l, t)
    ensures !Active(l, Certeza)
    ensures Active(l, Energia) <==> l.energia < 70.0
    ensures Active(l, Integridad) <==> l.integridad < 80.0
    ensures Active(l, Afiliacion) <==> l.afiliacion < 70.0
    ensures Active(l, Competencia) <==> l.competencia < 60.0
  {
    assert !Active(l, Certeza);
    assert Active(l, Energia) <==> l.energia < 70.0;
    assert Active(l, Integridad) <==> l.integridad < 80.0;
    assert Active(l, Afiliacion) <==> l.afiliacion < 70.0;
    assert Active(l, Competencia) <==> l.competencia < 60.0;
    forall t ensures HasDrive(l, t) <==> Active(l, t) {
      DriveCoverageOf(l, t);
    }
  }

  /** Some drive of the drive track stems from the tank. */
  predicate HasDrive(l: Levels, t: Tank)
  {
    var ds := DriveStateOf(l).drives;
    exists k :: 0 <= k < |ds| && ds[k].source == FromTank(t)
  }

  /** One tank of `DriveCoverage`. */
  lemma DriveCoverageOf(l: Levels, t: Tank)
    ensures HasDrive(l, t) <==> Active(l, t)
  {
    var ds := DriveStateOf(l).drives;
    if Active(l, t) {
      DriveForActiveTank(l, t);
    }
    forall k | 0 <= k < |ds| && ds[k].source == FromTank(t) ensures Active(l, t) {
      ActiveTankForDrive(l, t, k);
    }
  }

  /** Each drive's quota is its tank's deficit over 100; urgency is critical only under the critical level. */
  lemma DriveQuotas(l: Levels)
    ensures var ds := DriveStateOf(l).drives;
      forall k :: 0 <= k < |ds| ==>
        && ds[k].source.FromTank? && SpecOf(ds[k].source.tank).Some?
        && var t := ds[k].source.tank;
        && ds[k].quotaOfAffect == (100.0 - l.Get(t)) / 100.0
        && (ds[k].urgency == CriticalDrive <==> SpecOf(t).value.critical.Some? && l.Get(t) < SpecOf(t).value.critical.value)
        && ds[k].urgency != LowDrive
        && !ds[k].modified && ds[k].guilt == 0.0 && ds[k].shame == 0.0
  {
    DrivesAreActive(l);
  }

  lemma SortedStateShape(ds: seq<Proposal>)
    requires SortedDesc(ds, Quota)
    ensures var d := DriveStateFrom(ds);
      && (forall i, j :: 0 <= i < j < |d.drives| ==> d.drives[i].quotaOfAffect >= d.drives[j].quotaOfAffect)
      && (d.dominant.None? <==> d.drives == [])
      && (d.dominant.Some? ==> d.dominant.value == d.drives[0])
      && (d.hasConflict <==> |d.drives| >= 2 && d.drives[0].quotaOfAffect - d.drives[1].quotaOfAffect < 0.15)
  {
    if |ds| >= 2 {
      assert Quota(ds[0]) >= Quota(ds[1]);
    }
  }

  /** Drives come out by non-increasing quota; the dominant one heads the list. */
  lemma DriveOrder(l: Levels)
    ensures var d := DriveStateOf(l);
      && (forall i, j :: 0 <= i < j < |d.drives| ==> d.drives[i].quotaOfAffect >= d.drives[j].quotaOfAffect)
      && (d.dominant.None? <==> d.drives == [])
      && (d.dominant.Some? ==> d.dominant.value == d.drives[0])
      && (d.hasConflict <==> |d.drives| >= 2 && d.drives[0].quotaOfAffect - d.drives[1].quotaOfAffect < 0.15)
  {
    SortedStateShape(SortDesc(DriveCandidates(l), Quota));
  }

  /** With levels in [0, 100] every quota lies in (0.2, 1]. */
  lemma DriveQuotaRange(l: Levels)
    requires forall t :: 0.0 <= l.Get(t)
    ensures var ds := DriveStateOf(l).drives;
      forall k :: 0 <= k < |ds| ==> 0.2 < Quota(ds[k]) <= 1.0
  {
    var ds := DriveStateOf(l).drives;
    DrivesAreActive(l);
    forall k | 0 <= k < |ds| ensures 0.2 < Quota(ds[k]) <= 1.0 {
      ThresholdRange(ds[k].source.tank);
    }
  }

  lemma TensionBound(ds: seq<Proposal>)
    requires forall k :: 0 <= k < |ds| ==> 0.2 < Quota(ds[k]) <= 1.0
    ensures 0.0 <= Sum(ds, Quota) <= |ds| as real
  {
    SumBounds(ds, Quota, 1.0);
  }

  /** With levels in [0, 100] the total tension lies in [0, |drives|], and is 0 without drives. */
  lemma DriveTension(l: Levels)
    requires forall t :: 0.0 <= l.Get(t)
    ensures var d := DriveStateOf(l);
      && 0.0 <= d.totalTension <= |d.drives| as real
      && (d.drives == [] ==> d.totalTension == 0.0)
  {
    DriveQuotaRange(l);
    TensionBound(DriveStateOf(l).drives);
  }

  class DriveTrack {
    var activeDrives: seq<Proposal>

    constructor ()
      ensures activeDrives == []
    {
      activeDrives := [];
    }

    /** `process`: push the drive of each tank under threshold, then sort by quota. */
    method Process(st: Soma.SomaState) returns (d: DriveState)
      modifies this
      ensures d == DriveStateOf(st.tanks)
      ensures activeDrives == d.drives
    {
      var l := st.tanks;
      activeDrives := CollectDrives(l);
      activeDrives := SortDesc(activeDrives, Quota);
      var tension := TotalTension(activeDrives);
      d := DriveState(
        activeDrives,
        if |activeDrives| > 0 then Some(activeDrives[0]) else None,
        |activeDrives| > 1 && Abs(activeDrives[0].quotaOfAffect - activeDrives[1].quotaOfAffect) < 0.15,
        tension);
    }
  }

  /** Each tank's guarded push, as the drive track writes it. */
  lemma DrivePushes(l: Levels)
    ensures l.energia < 70.0 ==> DriveIf(l, Energia) == [NewDrive(SelfPreservation, "energy", Energia, "restore_energy",
              "rest", (100.0 - l.energia) / 100.0, if l.energia < 30.0 then CriticalDrive else NormalDrive)]
    ensures !(l.energia < 70.0) ==> DriveIf(l, Energia) == []
    ensures l.integridad < 80.0 ==> DriveIf(l, Integridad) == [NewDrive(SelfPreservation, "integrity", Integridad,
              "protect_self", "safety", (100.0 - l.integridad) / 100.0,
              if l.integridad < 40.0 then CriticalDrive else NormalDrive)]
    ensures !(l.integridad < 80.0) ==> DriveIf(l, Integridad) == []
    ensures l.afiliacion < 70.0 ==> DriveIf(l, Afiliacion) == [NewDrive(Libidinal, "affiliation", Afiliacion, "connect",
              "social_contact", (100.0 - l.afiliacion) / 100.0,
              if l.afiliacion < 25.0 then CriticalDrive else NormalDrive)]
    ensures !(l.afiliacion < 70.0) ==> DriveIf(l, Afiliacion) == []
    ensures l.competencia < 60.0 ==> DriveIf(l, Competencia) == [NewDrive(Libidinal, "mastery", Competencia,
              "demonstrate_ability", "achievement", (100.0 - l.competencia) / 100.0, NormalDrive)]
    ensures !(l.competencia < 60.0) ==> DriveIf(l, Competencia) == []
  {
  }

  /** The four guarded pushes of the drive track, in tank order. */
  method CollectDrives(l: Levels) returns (drives: seq<Proposal>)
    ensures drives == DriveCandidates(l)
  {
    DrivePushes(l);
    drives := [];
    if l.energia < 70.0 {
      drives := drives + [NewDrive(SelfPreservation, "energy", Energia, "restore_energy", "rest",
        (100.0 - l.energia) / 100.0, if l.energia < 30.0 then CriticalDrive else NormalDrive)];
    }
    assert drives == DriveIf(l, Energia);
    if l.integridad < 80.0 {
      drives := drives + [NewDrive(SelfPreservation, "integrity", Integridad, "protect_self", "safety",
        (100.0 - l.integridad) / 100.0, if l.integridad < 40.0 then CriticalDrive else NormalDrive)];
    }
    assert drives == DriveIf(l, Energia) + DriveIf(l, Integridad);
    if l.afiliacion < 70.0 {
      drives := drives + [NewDrive(Libidinal, "affiliation", Afiliacion, "connect", "social_contact",
        (100.0 - l.afiliacion) / 100.0, if l.afiliacion < 25.0 then CriticalDrive else NormalDrive)];
    }
    assert drives == DriveIf(l, Energia) + DriveIf(l, Integridad) + DriveIf(l, Afiliacion);
    if l.competencia < 60.0 {
      drives := drives + [NewDrive(Libidinal, "mastery", Competencia, "demonstrate_ability",
        "achievement", (100.0 - l.competencia) / 100.0, NormalDrive)];
    }
  }

  /** The `reduce` that adds up the quotas. */
  method TotalTension(ds: seq<Proposal>) returns (total: real)
    ensures total == Sum(ds, Quota)
  {
    total := 0.0;
    var k := 0;
    while k < |ds|
      invariant 0 <= k <= |ds|
      invariant total == Sum(ds[..k], Quota)
    {
      SumAppend(ds[..k], ds[k], Quota);
      assert ds[..k + 1] == ds[..k] + [ds[k]];
      total := total + ds[k].quotaOfAffect;
      k := k + 1;
    }
    assert ds[..k] == ds;
  }

  // ---------------------------------------------------------------------------
  // Perception track
  // ---------------------------------------------------------------------------

  function ValenceCharge(v: Valence): real
  {
    match v
    case PositiveValence => 0.7
    case NegativeValence => -0.7
    case NeutralValence => 0.0
  }

  /** The dominant drive makes the stimulus relevant when it comes from a tank the stimulus touches. */
  predicate Relevant(p: Stimulus, dominant: Option<Proposal>)
  {
    dominant.Some? && dominant.value.source.FromTank? && dominant.value.source.tank in p.affectedTanks
  }

  /** The charge of the environment representative. */
  function CathexisOf(p: Stimulus, dominant: Option<Proposal>): real
  {
    ValenceCharge(p.valence) + (if Relevant(p, dominant) then dominant.value.quotaOfAffect * 0.5 else 0.0)
  }

  /** The sign of the charge follows the valence unless a relevant drive adds to it; it never exceeds 1.2 in size. */
  lemma CathexisBounds(p: Stimulus, dominant: Option<Proposal>)
    requires dominant.Some? ==> 0.0 <= dominant.value.quotaOfAffect <= 1.0
    ensures var c := CathexisOf(p, dominant);
      && -0.7 <= c <= 1.2
      && (!Relevant(p, dominant) ==> c == ValenceCharge(p.valence))
      && (p.valence == PositiveValence ==> c >= 0.7)
      && (p.valence == NegativeValence ==> c <= -0.2)
      && (Relevant(p, dominant) ==> c >= ValenceCharge(p.valence))
  {
  }

  datatype EnvironmentPerception = EnvironmentPerception(
    cathexis: real, stype: StimulusType, intensity: real, affectsIntegrity: bool, affectsAffiliation: bool)

  /** `primalWarnings` holds the concepts; the action and reason of each warning are constants. */
  datatype PerceptionState = PerceptionState(environment: EnvironmentPerception, primalWarnings: seq<string>)

  function Mentions(input: string): string -> bool
  {
    c => Contains(input, c)
  }

  /** The repressed concepts the normalized input contains, in insertion order. */
  function Warnings(repressions: seq<string>, input: string): seq<string>
  {
    Filter(repressions, Mentions(input))
  }

  lemma WarningsIff(repressions: seq<string>, input: string, c: string)
    ensures c in Warnings(repressions, input) <==> c in repressions && Contains(input, c)
  {
    FilterIff(repressions, Mentions(input), c);
  }

  function PerceptionOf(repressions: seq<string>, p: Stimulus, d: DriveState): PerceptionState
  {
    PerceptionState(
      EnvironmentPerception(CathexisOf(p, d.dominant), p.stype, p.intensity,
                            Integridad in p.affectedTanks, Afiliacion in p.affectedTanks),
      Warnings(repressions, p.normalized))
  }

  class PerceptionTrack {
    /** The primally repressed concepts, lower-cased, each once, in insertion order. */
    var primalRepressions: seq<string>
    var currentPerceptions: seq<EnvironmentPerception>

    constructor ()
      ensures primalRepressions == [] && currentPerceptions == []
    {
      primalRepressions := [];
      currentPerceptions := [];
    }

    method Process(p: Stimulus, d: DriveState) returns (r: PerceptionState)
      modifies this
      ensures r == PerceptionOf(primalRepressions, p, d)
      ensures primalRepressions == old(primalRepressions)
      ensures currentPerceptions == [r.environment]
    {
      var reps := primalRepressions;
      var warnings: seq<string> := [];
      var k := 0;
      while k < |reps|
        invariant 0 <= k <= |reps|
        invariant warnings == Filter(reps[..k], Mentions(p.normalized))
        invariant primalRepressions == reps
      {
        var repressed := reps[k];
        FilterAppend(reps[..k], repressed, Mentions(p.normalized));
        assert reps[..k + 1] == reps[..k] + [repressed];
        if Contains(p.normalized, repressed) {
          warnings := warnings + [repressed];
        }
        k := k + 1;
      }
      assert reps[..k] == reps;
      var thingRep := new ThingRepresentative("perc", "environment");
      thingRep.Invest(ValenceCharge(p.valence));
      if d.dominant.Some? {
        var isRelevant := d.dominant.value.source.FromTank? && d.dominant.value.source.tank in p.affectedTanks;
        if isRelevant {
          thingRep.Invest(d.dominant.value.quotaOfAffect * 0.5);
        }
      }
      var env := EnvironmentPerception(thingRep.cathexis, p.stype, p.intensity,
                                       Integridad in p.affectedTanks, Afiliacion in p.affectedTanks);
      currentPerceptions := [env];
      r := PerceptionState(env, warnings);
    }

    /** Adds a concept, lower-cased, to the primal repressions. */
    method AddPrimalRepression(concept: string)
      modifies this
      ensures primalRepressions == AddUnique(old(primalRepressions), Lower(concept))
      ensures currentPerceptions == old(currentPerceptions)
    {
      var c := Lower(concept);
      if c !in primalRepressions {
        primalRepressions := primalRepressions + [c];
      }
    }
  }

  /** Adding concepts one by one: the repressions stay duplicate-free and gain exactly the lower-cased concepts. */
  function AddAll(repressions: seq<string>, concepts: seq<string>): (r: seq<string>)
    ensures Distinct(repressions) ==> Distinct(r)
    ensures forall c :: c in r <==> c in repressions || exists k :: 0 <= k < |concepts| && c == Lower(concepts[k])
    decreases |concepts|
  {
    if concepts == [] then repressions
    else
      var r := AddUnique(AddAll(repressions, concepts[..|concepts| - 1]), Lower(concepts[|concepts| - 1]));
      assert forall k :: 0 <= k < |concepts| - 1 ==> concepts[..|concepts| - 1][k] == concepts[k];
      r
  }

  // ---------------------------------------------------------------------------
  // Defense track
  // ---------------------------------------------------------------------------

  /** What the censor is shown of a proposal: its subtype as the drive, its aim as the behaviour. */
  function CensorOf(p: Proposal): CensorInput
  {
    CensorInput(Some(p.subtype), Some(p.aim))
  }

  /** `_applyDefense`: how each mechanism rewrites a censored proposal. */
  function ApplyDefense(p: Proposal, d: Option<DefenseResult>): Option<Proposal>
  {
    match d
    case None => Some(p)
    case Some(def) =>
      match def.tipo
      case Represion => None
      case Sublimacion =>
        Some(p.(aim := "humor", obj := "wit", modified := true, defenseApplied := Some(Sublimacion)))
      case Desplazamiento =>
        Some(p.(obj := "neutral_topic", modified := true, defenseApplied := Some(Desplazamiento)))
      case Racionalizacion =>
        Some(p.(modified := true, defenseApplied := Some(Racionalizacion), rationalization := Some(def.instruccionPrompt)))
      case Proyeccion =>
        Some(p.(target := Some("other"), modified := true, defenseApplied := Some(Proyeccion)))
      case Negacion =>
        Some(p.(intensity := Some(0.1), modified := true, defenseApplied := Some(Negacion)))
  }

  /**
   * Repression drops the proposal; every other mechanism marks it modified,
   * records itself, touches only the fields it is about, and keeps the drive's
   * type, source, quota and urgency.
   */
  lemma ApplyDefenseSpec(p: Proposal, d: Option<DefenseResult>)
    ensures var r := ApplyDefense(p, d);
      && (d.None? ==> r == Some(p))
      && (d.Some? ==> (r.None? <==> d.value.tipo == Represion))
      && (d.Some? && r.Some? ==> r.value.modified && r.value.defenseApplied == Some(d.value.tipo))
      && (r.Some? ==>
            r.value.(aim := p.aim, obj := p.obj, modified := p.modified, defenseApplied := p.defenseApplied,
                     intensity := p.intensity, target := p.target, rationalization := p.rationalization) == p)
      && (d.Some? && r.Some? ==>
            var k := d.value.tipo;
            && r.value.aim == (if k == Sublimacion then "humor" else p.aim)
            && r.value.obj == (if k == Sublimacion then "wit" else if k == Desplazamiento then "neutral_topic" else p.obj)
            && r.value.target == (if k == Proyeccion then Some("other") else p.target)
            && r.value.intensity == (if k == Negacion then Some(0.1) else p.intensity)
            && r.value.rationalization ==
                 (if k == Racionalizacion then Some(d.value.instruccionPrompt) else p.rationalization))
  {
  }

  /** The mechanism the superego raises against a proposal, when it forbids it. */
  function DefenseAgainst(n: Norms, p: Proposal): (r: Option<DefenseKind>)
    ensures r.None? <==> CensuraOf(n, CensorOf(p)).permitido
    ensures r.Some? ==> r.value == SugerirDefensa(CensorOf(p))
  {
    var c := CensuraOf(n, CensorOf(p));
    if c.permitido then None else c.defensaSugerida
  }

  /** The proposal as it passes an allowing censor. */
  function Passed(n: Norms, p: Proposal): Proposal
  {
    var c := CensuraOf(n, CensorOf(p));
    p.(modified := false, guilt := c.culpa, shame := c.verguenza)
  }

  /** What the filter emits for one proposal. */
  function Outcome(n: Norms, p: Proposal): seq<Proposal>
  {
    match DefenseAgainst(n, p)
    case None => [Passed(n, p)]
    case Some(k) => match ApplyDefense(p, Some(DefenseOf(k))) case None => [] case Some(q) => [q]
  }

  /** One entry of the track's `activeDefenses`. */
  datatype DefenseRecord = DefenseRecord(originalProposal: Proposal, defense: DefenseResult, reason: seq<Prohibicion>)

  function RecordOf(n: Norms, p: Proposal): seq<DefenseRecord>
  {
    match DefenseAgainst(n, p)
    case None => []
    case Some(k) => [DefenseRecord(p, DefenseOf(k), CensuraOf(n, CensorOf(p)).violaciones)]
  }

  function LogOf(n: Norms, p: Proposal): seq<ActiveDefense>
  {
    match DefenseAgainst(n, p)
    case None => []
    case Some(k) => [ActiveDefense(k, p)]
  }

  function OutcomeFn(n: Norms): Proposal -> seq<Proposal>
  {
    p => Outcome(n, p)
  }

  function RecordFn(n: Norms): Proposal -> seq<DefenseRecord>
  {
    p => RecordOf(n, p)
  }

  function LogFn(n: Norms): Proposal -> seq<ActiveDefense>
  {
    p => LogOf(n, p)
  }

  /** The proposals the filter lets through, in order. */
  function Kept(n: Norms, ps: seq<Proposal>): seq<Proposal>
  {
    FlatMap(ps, OutcomeFn(n))
  }

  /** The track's `activeDefenses` after filtering `ps`. */
  function Records(n: Norms, ps: seq<Proposal>): seq<DefenseRecord>
  {
    FlatMap(ps, RecordFn(n))
  }

  /** What the superego appends to its own defense log while filtering `ps`. */
  function Logged(n: Norms, ps: seq<Proposal>): seq<ActiveDefense>
  {
    FlatMap(ps, LogFn(n))
  }

  predicate Allowed(n: Norms, p: Proposal)
  {
    CensuraOf(n, CensorOf(p)).permitido
  }

  /** The filter's three outputs for one proposal, by whether the censor allows it. */
  lemma OutcomeCases(n: Norms, p: Proposal)
    ensures Allowed(n, p) ==> Outcome(n, p) == [Passed(n, p)] && RecordOf(n, p) == [] && LogOf(n, p) == []
    ensures !Allowed(n, p) ==> |RecordOf(n, p)| == 1 && |LogOf(n, p)| == 1
  {
  }

  /** A defense is recorded iff some proposal is forbidden; the superego logs one entry per record. */
  lemma RecordsIff(n: Norms, ps: seq<Proposal>)
    ensures |Records(n, ps)| == |Logged(n, ps)|
    ensures Records(n, ps) == [] <==> forall k :: 0 <= k < |ps| ==> Allowed(n, ps[k])
  {
    forall k | 0 <= k < |ps|
      ensures |RecordFn(n)(ps[k])| == |LogFn(n)(ps[k])|
      ensures RecordFn(n)(ps[k]) == [] <==> Allowed(n, ps[k])
    {
      OutcomeCases(n, ps[k]);
    }
    FlatMapSameLength(ps, RecordFn(n), LogFn(n));
    FlatMapEmpty(ps, RecordFn(n));
  }

  /** When every proposal is allowed, each one passes exactly once, in order, stamped with the censor's guilt and shame. */
  lemma KeptWhenAllowed(n: Norms, ps: seq<Proposal>)
    requires forall k :: 0 <= k < |ps| ==> Allowed(n, ps[k])
    ensures |Kept(n, ps)| == |ps|
    ensures forall k :: 0 <= k < |ps| ==> Kept(n, ps)[k] == Passed(n, ps[k])
  {
    forall k | 0 <= k < |ps| ensures OutcomeFn(n)(ps[k]) == [Passed(n, ps[k])] {
      OutcomeCases(n, ps[k]);
    }
    FlatMapSingletons(ps, OutcomeFn(n));
  }

  /** The two behaviours a prohibition can name. */
  predicate Harmless(p: Proposal)
  {
    p.aim != "atacar o huir" && p.aim != "evitar esfuerzo"
  }

  /**
   * Only the behaviours "atacar o huir" and "evitar esfuerzo" can breach a
   * prohibition, so a proposal with any other aim is allowed without guilt.
   */
  lemma OtherAimsAllowed(n: Norms, p: Proposal)
    requires Harmless(p)
    ensures Allowed(n, p)
    ensures Passed(n, p) == p.(modified := false, guilt := 0.0, shame := 0.0)
  {
    var ps := n.prohibiciones;
    forall k | 0 <= k < |ps| ensures !ViolaProhibicion(CensorOf(p), ps[k]) {
      if ViolaProhibicion(CensorOf(p), ps[k]) {
        OnlyTwoRulesMatch(CensorOf(p), ps[k]);
      }
    }
    MatchedNone(ps, CensorOf(p), true);
    MatchedNone(ps, CensorOf(p), false);
  }

  /** Harmless, unstamped proposals go through the filter untouched and raise no defense. */
  lemma HarmlessPass(n: Norms, ps: seq<Proposal>)
    requires forall k :: 0 <= k < |ps| ==> Harmless(ps[k])
    requires forall k :: 0 <= k < |ps| ==> !ps[k].modified && ps[k].guilt == 0.0 && ps[k].shame == 0.0
    ensures Records(n, ps) == [] && Logged(n, ps) == [] && Kept(n, ps) == ps
  {
    forall k | 0 <= k < |ps| ensures Allowed(n, ps[k]) && Passed(n, ps[k]) == ps[k] {
      OtherAimsAllowed(n, ps[k]);
    }
    RecordsIff(n, ps);
    KeptWhenAllowed(n, ps);
  }

  lemma DriveIsHarmless(l: Levels, t: Tank)
    requires SpecOf(t).Some?
    ensures Harmless(DriveOf(l, t))
  {
  }

  lemma DrivesAreHarmless(l: Levels)
    ensures var ds := DriveStateOf(l).drives;
      forall k :: 0 <= k < |ds| ==> Harmless(ds[k]) && !ds[k].modified && ds[k].guilt == 0.0 && ds[k].shame == 0.0
  {
    var ds := DriveStateOf(l).drives;
    DrivesAreActive(l);
    forall k | 0 <= k < |ds| ensures Harmless(ds[k]) {
      DriveIsHarmless(l, ds[k].source.tank);
    }
  }

  /**
   * The censor is shown a drive's aim ("restore_energy", "protect_self",
   * "connect", "demonstrate_ability"), never one of the two forbidden
   * behaviours: whatever the norms, no drive is ever censored and every drive
   * reaches the secondary process unchanged.
   */
  lemma DrivesNeverCensored(n: Norms, l: Levels)
    ensures Records(n, DriveStateOf(l).drives) == []
    ensures Logged(n, DriveStateOf(l).drives) == []
    ensures Kept(n, DriveStateOf(l).drives) == DriveStateOf(l).drives
  {
    DrivesAreHarmless(l);
    HarmlessPass(n, DriveStateOf(l).drives);
  }

  /** A proactive proposal of the superego for an ideal. */
  function ProactiveProposal(i: Ideal): Proposal
  {
    Proposal(SuperegoProactive, i.ideal, FromSuperego, i.ideal, "ideal_satisfaction", i.peso * 0.5, LowDrive,
             false, None, 0.0, 0.0, None, None, None)
  }

  /**
   * `_generateProactiveProposals`: ideals weighing over 0.6 draw a random
   * number (`rand(draw)` is the draw-th one) and propose themselves when it
   * falls under 0.2 times their weight. Lighter ideals draw nothing.
   */
  function Proactive(ideales: seq<Ideal>, rand: nat -> real, draw: nat): seq<Proposal>
    decreases |ideales|
  {
    if ideales == [] then []
    else if ideales[0].peso > 0.6 then
      (if rand(draw) < ideales[0].peso * 0.2 then [ProactiveProposal(ideales[0])] else [])
        + Proactive(ideales[1..], rand, draw + 1)
    else Proactive(ideales[1..], rand, draw)
  }

  /** Every proactive proposal stems from an ideal weighing over 0.6; there is at most one per ideal. */
  lemma {:induction false} ProactiveShape(ideales: seq<Ideal>, rand: nat -> real, draw: nat)
    ensures |Proactive(ideales, rand, draw)| <= |ideales|
    ensures forall q :: q in Proactive(ideales, rand, draw) ==>
              exists i :: i in ideales && i.peso > 0.6 && q == ProactiveProposal(i)
    decreases |ideales|
  {
    if ideales != [] {
      var i0 := ideales[0];
      var tail := ideales[1..];
      var next := if i0.peso > 0.6 then draw + 1 else draw;
      ProactiveShape(tail, rand, next);
      var head := if i0.peso > 0.6 && rand(draw) < i0.peso * 0.2 then [ProactiveProposal(i0)] else [];
      assert Proactive(ideales, rand, draw) == head + Proactive(tail, rand, next);
      forall q | q in Proactive(ideales, rand, draw)
        ensures exists i :: i in ideales && i.peso > 0.6 && q == ProactiveProposal(i)
      {
        if q in head {
          assert i0 in ideales;
        } else {
          var i :| i in tail && i.peso > 0.6 && q == ProactiveProposal(i);
          assert i in ideales;
        }
      }
    }
  }

  /** With the default ideals only "ser_util" (first draw under 0.14) and "ser_autentico" (second draw under 0.16) can propose. */
  lemma DefaultProactive(rand: nat -> real)
    ensures Proactive(DefaultNorms.ideales, rand, 0) ==
      (if rand(0) < 0.14 then [ProactiveProposal(DefaultNorms.ideales[0])] else [])
      + (if rand(1) < 0.16 then [ProactiveProposal(DefaultNorms.ideales[2])] else [])
  {
    var ids := DefaultNorms.ideales;
    assert ids[1..][1..][1..] == [];
  }

  datatype FilterResult = FilterResult(proposals: seq<Proposal>, defenses: seq<DefenseRecord>, hasDefenseActive: bool)

  class DefenseTrack {
    const superego: Superego
    var activeDefenses: seq<DefenseRecord>
    var filteredProposals: seq<Proposal>

    constructor (superego: Superego)
      ensures this.superego == superego
      ensures activeDefenses == [] && filteredProposals == []
    {
      this.superego := superego;
      activeDefenses := [];
      filteredProposals := [];
    }

    /**
     * `filter`: each proposal is censored; a forbidden one raises the suggested
     * defense, is recorded and is rewritten (or dropped) by it; an allowed one
     * passes stamped with guilt and shame. The superego's proactive proposals follow.
     */
    method Filter(ps: seq<Proposal>, rand: nat -> real) returns (r: FilterResult)
      modifies this, superego
      ensures superego.norms == old(superego.norms)
      ensures filteredProposals == Kept(superego.norms, ps) + Proactive(superego.norms.ideales, rand, 0)
      ensures activeDefenses == Records(superego.norms, ps)
      ensures superego.defensasActivas == old(superego.defensasActivas) + Logged(superego.norms, ps)
      ensures r == FilterResult(filteredProposals, activeDefenses, activeDefenses != [])
    {
      var n := superego.norms;
      filteredProposals := [];
      activeDefenses := [];
      var k := 0;
      while k < |ps|
        invariant 0 <= k <= |ps|
        invariant superego.norms == n
        invariant filteredProposals == Kept(n, ps[..k])
        invariant activeDefenses == Records(n, ps[..k])
        invariant superego.defensasActivas == old(superego.defensasActivas) + Logged(n, ps[..k])
      {
        FilterStep(n, ps, k);
        FilterOne(ps[k]);
        k := k + 1;
      }
      assert ps[..k] == ps;
      var proactive := GenerateProactive(n.ideales, rand);
      filteredProposals := filteredProposals + proactive;
      r := FilterResult(filteredProposals, activeDefenses, |activeDefenses| > 0);
    }

    /** The body of the filter loop for one proposal. */
    method FilterOne(p: Proposal)
      modifies this, superego
      ensures superego.norms == old(superego.norms)
      ensures filteredProposals == old(filteredProposals) + Outcome(superego.norms, p)
      ensures activeDefenses == old(activeDefenses) + RecordOf(superego.norms, p)
      ensures superego.defensasActivas == old(superego.defensasActivas) + LogOf(superego.norms, p)
    {
      var censura := superego.Censurar(CensorOf(p));
      if !censura.permitido {
        BlockedCase(superego.norms, p);
        var kind := censura.defensaSugerida.value;
        NameRoundTrip(kind);
        var defensa := superego.ActivarDefensa(NameOf(kind), p);
        activeDefenses := activeDefenses + [DefenseRecord(p, defensa.value, censura.violaciones)];
        var modified := ApplyDefense(p, defensa);
        if modified.Some? {
          filteredProposals := filteredProposals + [modified.value];
        }
      } else {
        AllowedCase(superego.norms, p);
        filteredProposals := filteredProposals + [p.(modified := false, guilt := censura.culpa,
                                                     shame := censura.verguenza)];
      }
    }
  }

  lemma NameRoundTrip(k: DefenseKind)
    ensures MechanismOf(NameOf(k)) == Some(k)
  {
  }

  lemma BlockedCase(n: Norms, p: Proposal)
    requires !CensuraOf(n, CensorOf(p)).permitido
    ensures var c := CensuraOf(n, CensorOf(p));
      && c.defensaSugerida.Some?
      && var k := c.defensaSugerida.value;
      && Outcome(n, p) == (match ApplyDefense(p, Some(DefenseOf(k))) case None => [] case Some(q) => [q])
      && RecordOf(n, p) == [DefenseRecord(p, DefenseOf(k), c.violaciones)]
      && LogOf(n, p) == [ActiveDefense(k, p)]
  {
  }

  lemma AllowedCase(n: Norms, p: Proposal)
    requires CensuraOf(n, CensorOf(p)).permitido
    ensures var c := CensuraOf(n, CensorOf(p));
      && Outcome(n, p) == [p.(modified := false, guilt := c.culpa, shame := c.verguenza)]
      && RecordOf(n, p) == [] && LogOf(n, p) == []
  {
  }

  /** The filter's outputs over one more proposal. */
  lemma FilterStep(n: Norms, ps: seq<Proposal>, k: nat)
    requires k < |ps|
    ensures Kept(n, ps[..k + 1]) == Kept(n, ps[..k]) + Outcome(n, ps[k])
    ensures Records(n, ps[..k + 1]) == Records(n, ps[..k]) + RecordOf(n, ps[k])
    ensures Logged(n, ps[..k + 1]) == Logged(n, ps[..k]) + LogOf(n, ps[k])
  {
    FlatMapStep(ps, OutcomeFn(n), k);
    FlatMapStep(ps, RecordFn(n), k);
    FlatMapStep(ps, LogFn(n), k);
  }

  /**
   * One step of `generateProactive`: the k-th ideal's own proposal, if any,
   * appended to those so far, leaves the proposals of the ideals after it to come.
   */
  lemma ProactiveStep(ideales: seq<Ideal>, rand: nat -> real, draw: nat, k: nat, sofar: seq<Proposal>)
    requires k < |ideales|
    ensures ideales[k].peso > 0.6 && rand(draw) < ideales[k].peso * 0.2 ==>
      sofar + Proactive(ideales[k..], rand, draw)
        == (sofar + [ProactiveProposal(ideales[k])]) + Proactive(ideales[k + 1..], rand, draw + 1)
    ensures ideales[k].peso > 0.6 && !(rand(draw) < ideales[k].peso * 0.2) ==>
      sofar + Proactive(ideales[k..], rand, draw) == sofar + Proactive(ideales[k + 1..], rand, draw + 1)
    ensures ideales[k].peso <= 0.6 ==>
      sofar + Proactive(ideales[k..], rand, draw) == sofar + Proactive(ideales[k + 1..], rand, draw)
  {
    assert ideales[k..][0] == ideales[k] && ideales[k..][1..] == ideales[k + 1..];
  }

  method GenerateProactive(ideales: seq<Ideal>, rand: nat -> real) returns (proposals: seq<Proposal>)
    ensures proposals == Proactive(ideales, rand, 0)
  {
    ghost var all := Proactive(ideales, rand, 0);
    proposals := [];
    var draw := 0;
    var k := 0;
    assert ideales[k..] == ideales;
    while k < |ideales|
      invariant 0 <= k <= |ideales|
      invariant proposals + Proactive(ideales[k..], rand, draw) == all
    {
      var ideal := ideales[k];
      ProactiveStep(ideales, rand, draw, k, proposals);
      if ideal.peso > 0.6 {
        if rand(draw) < ideal.peso * 0.2 {
          proposals := proposals + [ProactiveProposal(ideal)];
        }
        draw := draw + 1;
      }
      k := k + 1;
    }
    assert Proactive(ideales[k..], rand, draw) == [];
    assert proposals + [] == proposals;
  }

  // ---------------------------------------------------------------------------
  // Orchestrator
  // ---------------------------------------------------------------------------

  datatype PrimaryResult = PrimaryResult(
    proposals: seq<Proposal>,
    driveState: DriveState,
    perceptionState: PerceptionState,
    evaluation: Evaluation,
    defenses: seq<DefenseRecord>,
    hasDefenseActive: bool,
    primalWarnings: seq<string>)

  /**
   * The whole primary process as a value: `repressions` are the primal
   * repressions, `n` the superego's norms, `rand` the random draws.
   */
  function PrimaryOf(l: Levels, p: Stimulus, repressions: seq<string>, n: Norms,
                     lastOutcome: Option<string>, selfActivated: bool, rand: nat -> real): PrimaryResult
  {
    var d := DriveStateOf(l);
    var c := CensuraOf(n, CensorInput(None, None));
    var perception := PerceptionOf(repressions, p, d);
    PrimaryResult(
      Kept(n, d.drives) + Proactive(n.ideales, rand, 0),
      d,
      perception,
      EvaluationOf(l, p, SuperegoState(c.culpa, c.verguenza), lastOutcome, selfActivated),
      Records(n, d.drives),
      Records(n, d.drives) != [],
      perception.primalWarnings)
  }

  /** `PrimaryOf` assembled from its parts, with the censor's empty verdict. */
  lemma PrimaryOfParts(l: Levels, p: Stimulus, repressions: seq<string>, n: Norms,
                       lastOutcome: Option<string>, selfActivated: bool, rand: nat -> real,
                       d: DriveState, perception: PerceptionState, ev: Evaluation,
                       proposals: seq<Proposal>, records: seq<DefenseRecord>)
    requires d == DriveStateOf(l)
    requires perception == PerceptionOf(repressions, p, d)
    requires ev == EvaluationOf(l, p, SuperegoState(0.0, 0.0), lastOutcome, selfActivated)
    requires proposals == Kept(n, d.drives) + Proactive(n.ideales, rand, 0)
    requires records == Records(n, d.drives)
    ensures PrimaryOf(l, p, repressions, n, lastOutcome, selfActivated, rand)
         == PrimaryResult(proposals, d, perception, ev, records, records != [], perception.primalWarnings)
  {
    EmptyImpulseAllowed(n, CensorInput(None, None));
  }

  /**
   * The primary process never raises a defense, passes every drive on as it
   * came, adds only proactive proposals, and evaluates with no guilt and no
   * shame (the censor it consults for them is shown an empty impulse).
   */
  lemma PrimaryNeverDefends(l: Levels, p: Stimulus, repressions: seq<string>, n: Norms,
                            lastOutcome: Option<string>, selfActivated: bool, rand: nat -> real)
    ensures var r := PrimaryOf(l, p, repressions, n, lastOutcome, selfActivated, rand);
      && !r.hasDefenseActive && r.defenses == []
      && r.proposals == r.driveState.drives + Proactive(n.ideales, rand, 0)
      && r.evaluation == EvaluationOf(l, p, SuperegoState(0.0, 0.0), lastOutcome, selfActivated)
      && r.evaluation.extended.guilt == 0.0 && r.evaluation.extended.shame == 0.0
  {
    DrivesNeverCensored(n, l);
    EmptyImpulseAllowed(n, CensorInput(None, None));
    EvaluationFixedTerms(l, p, SuperegoState(0.0, 0.0), lastOutcome, selfActivated);
  }

  class PrimaryProcess {
    const driveTrack: DriveTrack
    const perceptionTrack: PerceptionTrack
    const defenseTrack: DefenseTrack
    const psychicIntensity: PsychicIntensity
    var lastProcessResult: Option<PrimaryResult>

    constructor (superego: Superego)
      ensures defenseTrack.superego == superego
      ensures fresh(driveTrack) && fresh(perceptionTrack) && fresh(defenseTrack) && fresh(psychicIntensity)
      ensures perceptionTrack.primalRepressions == []
      ensures lastProcessResult == None
    {
      driveTrack := new DriveTrack();
      perceptionTrack := new PerceptionTrack();
      defenseTrack := new DefenseTrack(superego);
      psychicIntensity := new PsychicIntensity();
      lastProcessResult := None;
    }

    /** The first half of `process`: the drive track, then the perception track on its drives. */
    method Perceive(st: Soma.SomaState, p: Stimulus) returns (d: DriveState, perception: PerceptionState)
      modifies driveTrack, perceptionTrack
      ensures d == DriveStateOf(st.tanks)
      ensures perception == PerceptionOf(old(perceptionTrack.primalRepressions), p, d)
      ensures perceptionTrack.primalRepressions == old(perceptionTrack.primalRepressions)
    {
      d := driveTrack.Process(st);
      perception := perceptionTrack.Process(p, d);
    }

    /**
     * The second half of `process`: the evaluation, under the empty verdict of
     * the censor, then the defense track on the drives.
     */
    method Judge(st: Soma.SomaState, p: Stimulus, superego: Superego, d: DriveState,
                 lastOutcome: Option<string>, selfActivated: bool, rand: nat -> real)
      returns (ev: Evaluation, f: FilterResult)
      modifies psychicIntensity, defenseTrack, defenseTrack.superego
      ensures ev == EvaluationOf(st.tanks, p, SuperegoState(0.0, 0.0), lastOutcome, selfActivated)
      ensures f.proposals == Kept(old(defenseTrack.superego.norms), d.drives)
                             + Proactive(old(defenseTrack.superego.norms).ideales, rand, 0)
      ensures f.defenses == Records(old(defenseTrack.superego.norms), d.drives)
      ensures f.hasDefenseActive == (f.defenses != [])
      ensures defenseTrack.superego.norms == old(defenseTrack.superego.norms)
      ensures defenseTrack.filteredProposals == f.proposals
    {
      var censura := superego.Censurar(CensorInput(None, None));
      EmptyImpulseAllowed(superego.norms, CensorInput(None, None));
      ev := psychicIntensity.Evaluate(st.tanks, p, SuperegoState(censura.culpa, censura.verguenza), lastOutcome, selfActivated);
      f := defenseTrack.Filter(d.drives, rand);
    }

    /** `process`: drive track, perception track, evaluation, defense track, in that order. */
    method Process(st: Soma.SomaState, p: Stimulus, superego: Superego,
                   lastOutcome: Option<string>, selfActivated: bool, rand: nat -> real)
      returns (r: PrimaryResult)
      modifies this, driveTrack, perceptionTrack, defenseTrack, defenseTrack.superego, psychicIntensity
      ensures r == PrimaryOf(st.tanks, p, old(perceptionTrack.primalRepressions), old(defenseTrack.superego.norms),
                             lastOutcome, selfActivated, rand)
      ensures perceptionTrack.primalRepressions == old(perceptionTrack.primalRepressions)
      ensures defenseTrack.superego.norms == old(defenseTrack.superego.norms)
      ensures defenseTrack.filteredProposals == r.proposals
      ensures lastProcessResult == Some(r)
    {
      ghost var reps, n := perceptionTrack.primalRepressions, defenseTrack.superego.norms;
      r := RunTracks(st, p, superego, lastOutcome, selfActivated, rand);
      lastProcessResult := Some(r);
      assert perceptionTrack.primalRepressions == reps && defenseTrack.superego.norms == n;
    }

    /** The four tracks of `process`, whose result it then stores. */
    method RunTracks(st: Soma.SomaState, p: Stimulus, superego: Superego,
                     lastOutcome: Option<string>, selfActivated: bool, rand: nat -> real)
      returns (r: PrimaryResult)
      modifies driveTrack, perceptionTrack, defenseTrack, defenseTrack.superego, psychicIntensity
      ensures r == PrimaryOf(st.tanks, p, old(perceptionTrack.primalRepressions), old(defenseTrack.superego.norms),
                             lastOutcome, selfActivated, rand)
      ensures perceptionTrack.primalRepressions == old(perceptionTrack.primalRepressions)
      ensures defenseTrack.superego.norms == old(defenseTrack.superego.norms)
      ensures defenseTrack.filteredProposals == r.proposals
    {
      var n := defenseTrack.superego.norms;
      var reps := perceptionTrack.primalRepressions;
      var driveState, perceptionState := Perceive(st, p);
      var evaluation, defenseResult := Judge(st, p, superego, driveState, lastOutcome, selfActivated, rand);
      r := PrimaryResult(defenseResult.proposals, driveState, perceptionState, evaluation,
                         defenseResult.defenses, defenseResult.hasDefenseActive, perceptionState.primalWarnings);
      PrimaryOfParts(st.tanks, p, reps, n, lastOutcome, selfActivated, rand,
                     driveState, perceptionState, evaluation, defenseResult.proposals, defenseResult.defenses);
    }

    method AddPrimalRepression(concept: string)
      modifies perceptionTrack
      ensures perceptionTrack.primalRepressions == AddUnique(old(perceptionTrack.primalRepressions), Lower(concept))
    {
      perceptionTrack.AddPrimalRepression(concept);
    }

    /**
     * `getTopProposals`: sorts the stored proposals by quota, in place, and
     * returns the first `limit` of them.
     */
    method GetTopProposals(limit: nat := 3) returns (top: seq<Proposal>)
      modifies this
      ensures lastProcessResult.None? <==> old(lastProcessResult).None?
      ensures old(lastProcessResult).None? ==> top == []
      ensures old(lastProcessResult).Some? ==>
        var sorted := SortDesc(old(lastProcessResult).value.proposals, Quota);
        && lastProcessResult == Some(old(lastProcessResult).value.(proposals := sorted))
        && top == Take(sorted, limit)
    {
      if lastProcessResult.None? {
        return [];
      }
      var sorted := SortDesc(lastProcessResult.value.proposals, Quota);
      lastProcessResult := Some(lastProcessResult.value.(proposals := sorted));
      top := Take(sorted, limit);
    }

    /** `restore`: re-adds the saved primal repressions. */
    method Restore(concepts: Option<seq<string>>)
      modifies perceptionTrack
      ensures perceptionTrack.primalRepressions ==
                AddAll(old(perceptionTrack.primalRepressions), concepts.GetOr([]))
    {
      if concepts.None? {
        return;
      }
      var cs := concepts.value;
      var k := 0;
      while k < |cs|
        invariant 0 <= k <= |cs|
        invariant perceptionTrack.primalRepressions == AddAll(old(perceptionTrack.primalRepressions), cs[..k])
      {
        assert cs[..k + 1][..k] == cs[..k];
        perceptionTrack.AddPrimalRepression(cs[k]);
        k := k + 1;
      }
      assert cs[..k] == cs;
    }
  }

  /** The proposals `getTopProposals` returns have the largest quotas: none left out outweighs one returned. */
  lemma TopProposalsLargest(ps: seq<Proposal>, limit: nat, i: nat, j: nat)
    requires i < |Take(SortDesc(ps, Quota), limit)| <= j < |ps|
    ensures Take(SortDesc(ps, Quota), limit)[i].quotaOfAffect >= SortDesc(ps, Quota)[j].quotaOfAffect
  {
    assert SortedDesc(SortDesc(ps, Quota), Quota);
  }
}
