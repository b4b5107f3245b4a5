// Value types passed between the stages of the psyche pipeline: the five need
// tanks, a classified stimulus, and the drive proposals of the primary process.

module Types {
  import opened Util

  /** The five homeostatic need tanks, in their declaration order. */
  datatype Tank = Energia | Integridad | Afiliacion | Certeza | Competencia

  const TankOrder: seq<Tank> := [Energia, Integridad, Afiliacion, Certeza, Competencia]

  function TankIndex(t: Tank): (k: nat)
    ensures k < |TankOrder| && TankOrder[k] == t
  {
    match t
    case Energia => 0
    case Integridad => 1
    case Afiliacion => 2
    case Certeza => 3
    case Competencia => 4
  }

  /** One level per tank (the `tanks` object of the body). */
  datatype Levels = Levels(energia: real, integridad: real, afiliacion: real, certeza: real, competencia: real)
  {
    function Get(t: Tank): real
    {
      match t
      case Energia => energia
      case Integridad => integridad
      case Afiliacion => afiliacion
      case Certeza => certeza
      case Competencia => competencia
    }

    function Set(t: Tank, v: real): (r: Levels)
      ensures r.Get(t) == v
      ensures forall u :: u != t ==> r.Get(u) == Get(u)
    {
      match t
      case Energia => this.(energia := v)
      case Integridad => this.(integridad := v)
      case Afiliacion => this.(afiliacion := v)
      case Certeza => this.(certeza := v)
      case Competencia => this.(competencia := v)
    }
  }

  /** Two level records that agree on every tank are equal. */
  lemma LevelsExt(a: Levels, b: Levels)
    requires forall t :: a.Get(t) == b.Get(t)
    ensures a == b
  {
    assert a.Get(Energia) == b.Get(Energia) && a.Get(Integridad) == b.Get(Integridad);
    assert a.Get(Afiliacion) == b.Get(Afiliacion) && a.Get(Certeza) == b.Get(Certeza);
    assert a.Get(Competencia) == b.Get(Competencia);
  }

  datatype StimulusType = Attack | Affection | Rejection | Ambiguity | Challenge | Neutral | Inquiry

  datatype Valence = PositiveValence | NegativeValence | NeutralValence

  /** Surface features of a message, all read on the normalized text. */
  datatype Features = Features(
    length: nat,
    isShort: bool,
    isLong: bool,
    isQuestion: bool,
    isCommand: bool,
    isGreeting: bool,
    isFarewell: bool,
    hasEmoji: bool,
    mentionsBot: bool,
    isReply: bool)

  /** The perception of one message. */
  datatype Stimulus = Stimulus(
    raw: string,
    normalized: string,
    stype: StimulusType,
    valence: Valence,
    intensity: real,
    affectedTanks: seq<Tank>,
    features: Features,
    userId: string)

  /** The six defense mechanisms of the superego, in declaration order. */
  datatype DefenseKind = Represion | Negacion | Proyeccion | Racionalizacion | Sublimacion | Desplazamiento

  datatype ProposalType = SelfPreservation | Libidinal | SuperegoProactive

  datatype DriveUrgency = CriticalDrive | NormalDrive | LowDrive

  datatype ProposalSource = FromTank(tank: Tank) | FromSuperego

  /**
   * A drive proposal of the primary process. `obj` is the drive's object;
   * `intensity`, `target` and `rationalization` are only present once a defense
   * has rewritten the proposal. A missing `guilt` or `shame` reads as 0.
   */
  datatype Proposal = Proposal(
    ptype: ProposalType,
    subtype: string,
    source: ProposalSource,
    aim: string,
    obj: string,
    quotaOfAffect: real,
    urgency: DriveUrgency,
    modified: bool,
    defenseApplied: Option<DefenseKind>,
    guilt: real,
    shame: real,
    intensity: Option<real>,
    target: Option<string>,
    rationalization: Option<string>)

  /** A fresh drive proposal, before any censoring. */
  function NewDrive(ptype: ProposalType, subtype: string, tank: Tank, aim: string, obj: string,
                    quota: real, urgency: DriveUrgency): Proposal
  {
    Proposal(ptype, subtype, FromTank(tank), aim, obj, quota, urgency, false, None, 0.0, 0.0, None, None, None)
  }

  /** Decision modes of the ego (the first three) and of the secondary process. */
  datatype Mode =
    | EvitacionSomatica
    | PrimarioPuro
    | DefensaActiva
    | DefenseMediated
    | EmotionallyCharged
    | RealityAdapted
    | Standard
}
