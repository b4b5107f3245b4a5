// The organ: one message runs through the soma, the perception, the ego and
// the memory, in the order of `PsiOrgan.process`. The world simulator only
// feeds the prompt text, which is not modelled here.
module PsiOrgan {
  import opened Util
  import opened Types
  import Soma
  import Perception
  import Evaluation
  import Modulators
  import Id
  import Memory
  import Superego
  import PrimaryProcess
  import SecondaryProcess
  import Ego

  // ---------------------------------------------------------------------------
  // The stimulus on the body
  // ---------------------------------------------------------------------------

  /** The tanks after `receiveDamage(x)`. */
  function Damaged(l: Levels, x: real): (r: Levels)
    ensures Soma.InRange(r)
    ensures Soma.InRange(l) && x >= 0.0 ==>
      && (forall t :: t == Energia || t == Competencia ==> r.Get(t) == l.Get(t))
      && (forall t :: r.Get(t) <= l.Get(t))
  {
    Soma.Clamped(l.(integridad := l.integridad - Soma.DamageFactor * x, afiliacion := l.afiliacion - 5.0 * x))
  }

  /** The tanks after `receiveAffection(x)`. */
  function Comforted(l: Levels, x: real): (r: Levels)
    ensures Soma.InRange(r)
    ensures Soma.InRange(l) && x >= 0.0 ==>
      && (forall t :: t == Energia || t == Competencia ==> r.Get(t) == l.Get(t))
      && (forall t :: r.Get(t) >= l.Get(t))
  {
    Soma.Clamped(l.(afiliacion := l.afiliacion + Soma.BoostFactor * x, integridad := l.integridad + 3.0 * x))
  }

  /** The tanks after `experienceConfusion(x)`. */
  function Confused(l: Levels, x: real): (r: Levels)
    ensures Soma.InRange(r)
    ensures Soma.InRange(l) && x >= 0.0 ==>
      && (forall t :: t == Energia || t == Competencia ==> r.Get(t) == l.Get(t))
      && (forall t :: r.Get(t) <= l.Get(t))
  {
    Soma.Clamped(l.(certeza := l.certeza - Soma.AmbiguityDamage * x))
  }

  /** The tanks after one `consumeAction`. */
  function Consumed(l: Levels): Levels
  {
    Soma.Clamped(l.(energia := l.energia - Soma.ActionCost))
  }

  /** The stimuli that hurt: attacks, rejections, ambiguity and challenges. */
  predicate Hurts(t: StimulusType)
  {
    t == Attack || t == Rejection || t == Ambiguity || t == Challenge
  }

  /**
   * `_applyStimulusToSoma`: the tanks after the stimulus, with its intensity
   * falling back to 0.5 when it is zero. A hurtful stimulus raises no tank, a
   * friendly one lowers none, and none of them touches energia or competencia.
   */
  function StimulusEffect(l: Levels, p: Stimulus): (r: Levels)
    ensures Soma.InRange(r)
    ensures Soma.InRange(l) && p.intensity >= 0.0 ==>
      && (forall t :: t == Energia || t == Competencia ==> r.Get(t) == l.Get(t))
      && (Hurts(p.stype) ==> forall t :: r.Get(t) <= l.Get(t))
      && (!Hurts(p.stype) ==> forall t :: r.Get(t) >= l.Get(t))
  {
    var i := OrDefault(p.intensity, 0.5);
    match p.stype
    case Attack => Damaged(l, i)
    case Affection => Comforted(l, i)
    case Rejection => Damaged(l, i * 0.5)
    case Ambiguity => Confused(l, i)
    case Challenge => Confused(l, i * 0.3)
    case Neutral => Comforted(l, 0.2)
    case Inquiry => Comforted(l, 0.2)
  }

  // ---------------------------------------------------------------------------
  // The episode
  // ---------------------------------------------------------------------------

  /**
   * The `somaChange` of an episode: each tank minus a fixed baseline. The
   * baselines are the soma's set points, so the change is the negated deficit
   * of every tank.
   */
  function SomaChangeOf(l: Levels): (c: Levels)
    ensures forall t :: c.Get(t) == -Soma.Deficit(l, t)
  {
    Levels(l.energia - 100.0, l.integridad - 100.0, l.afiliacion - 70.0, l.certeza - 80.0, l.competencia - 75.0)
  }

  /**
   * The valence the memory gives the keywords of an episode recorded at these
   * tanks: very bad once integridad is below 90; otherwise good once
   * afiliacion is above 75, and bad once energia is below 85.
   */
  lemma EpisodeValence(l: Levels)
    requires Soma.InRange(l)
    ensures l.integridad < 90.0 ==> Memory.ValenceOf(SomaChangeOf(l)) == -0.8
    ensures l.integridad >= 90.0 && l.afiliacion > 75.0 ==> Memory.ValenceOf(SomaChangeOf(l)) == 0.6
    ensures l.integridad >= 90.0 && l.afiliacion <= 75.0 && l.energia < 85.0 ==> Memory.ValenceOf(SomaChangeOf(l)) == -0.5
  {
  }

  /** `_recordExperience`: the episode built from the input, the perception and the ego's result. */
  function EpisodeOf(input: string, p: Stimulus, er: Ego.EgoResult, tanks: Levels, now: int): (e: Memory.Episode)
    ensures e.input == input && e.stype == p.stype && e.valence == p.valence
    ensures e.emotion == er.emotion && e.mode == er.decision.mode
    ensures e.defenseUsed == er.decision.defenseApplied
    ensures e.somaChange == Some(SomaChangeOf(tanks))
  {
    Memory.Episode(input, p.stype, p.valence, er.emotion, er.feeling, er.decision.mode,
                   er.decision.defenseApplied, Some(SomaChangeOf(tanks)), now)
  }

  // ---------------------------------------------------------------------------
  // What `process` reports
  // ---------------------------------------------------------------------------

  datatype OrganReport = OrganReport(
    maxTokens: nat,
    voice: string,
    emotion: Evaluation.EmotionName,
    feeling: real,
    arousal: real,
    resolution: Modulators.Resolution,
    mode: Mode,
    behavior: string,
    tanks: Levels,
    defenseActive: bool)

  /** The returned summary; `arousal || 50` and `behavior || 'conversar_normal'` fall back on falsy values. */
  function ReportOf(er: Ego.EgoResult, tanks: Levels): (r: OrganReport)
    ensures r.maxTokens == er.maxTokens && r.mode == er.decision.mode && r.tanks == tanks
    ensures r.arousal != 0.0 && r.behavior != ""
    ensures er.modulatorState.arousal != 0.0 ==> r.arousal == er.modulatorState.arousal
    ensures er.decision.behavior != "" ==> r.behavior == er.decision.behavior
    ensures r.defenseActive == er.primary.hasDefenseActive
  {
    OrganReport(er.maxTokens, er.voice, er.emotion, er.feeling, OrDefault(er.modulatorState.arousal, 50.0),
                er.modulatorState.resolution, er.decision.mode,
                if er.decision.behavior == "" then "conversar_normal" else er.decision.behavior,
                tanks, er.primary.hasDefenseActive)
  }

  /**
   * No message ever reports an active defense, records a defense in its
   * episode, or has its token budget cut below the resolution's.
   */
  lemma OrganNeverDefends(st: Soma.SomaState, p: Stimulus, markers: seq<Memory.Marker>, reps: seq<string>,
                          n: Superego.Norms, h: seq<Ego.EgoHistoryEntry>, rand: nat -> real,
                          input: string, tanks: Levels, now: int)
    ensures var er := Ego.EgoOf(st, p, markers, reps, n, h, rand);
      var r := ReportOf(er, tanks);
      && !r.defenseActive
      && r.mode != DefensaActiva
      && r.maxTokens == Modulators.MaxTokens(r.resolution)
      && EpisodeOf(input, p, er, st.tanks, now).defenseUsed.None?
  {
    Ego.NeverDefends(st, p, markers, reps, n, h, rand);
    PrimaryProcess.PrimaryNeverDefends(st.tanks, p, reps, n, Ego.LastOutcome(h), true, rand);
  }

  // ---------------------------------------------------------------------------
  // Spontaneous behaviour
  // ---------------------------------------------------------------------------

  datatype SpontaneousReason = AfiliacionCritica | EnergiaCritica | IntegridadBaja
  datatype SpontaneousUrgency = UrgencyHigh | UrgencyMedium
  datatype DriveSource = LibidinalSource | SelfPreservationSource

  datatype SpontaneousAction = SpontaneousAction(
    reason: SpontaneousReason,
    message: string,
    urgency: SpontaneousUrgency,
    driveSource: DriveSource)

  /** The tank each reason is about. */
  function ReasonTank(reason: SpontaneousReason): Tank
  {
    match reason
    case AfiliacionCritica => Afiliacion
    case EnergiaCritica => Energia
    case IntegridadBaja => Integridad
  }

  /**
   * The reason to speak up unprompted, by priority: afiliacion below 20, then
   * energia below 15, then integridad below 30; none when all three hold up.
   */
  function SpontaneousReasonOf(l: Levels): (r: Option<SpontaneousReason>)
    ensures r.None? <==> l.afiliacion >= 20.0 && l.energia >= 15.0 && l.integridad >= 30.0
    ensures r == Some(AfiliacionCritica) <==> l.afiliacion < 20.0
    ensures r == Some(EnergiaCritica) <==> l.afiliacion >= 20.0 && l.energia < 15.0
    ensures r == Some(IntegridadBaja) <==> l.afiliacion >= 20.0 && l.energia >= 15.0 && l.integridad < 30.0
  {
    if l.afiliacion < 20.0 then Some(AfiliacionCritica)
    else if l.energia < 15.0 then Some(EnergiaCritica)
    else if l.integridad < 30.0 then Some(IntegridadBaja)
    else None
  }

  function ActionFor(reason: SpontaneousReason): (a: SpontaneousAction)
    ensures a.reason == reason
    ensures a.urgency == UrgencyMedium <==> reason == EnergiaCritica
    ensures a.driveSource == LibidinalSource <==> reason == AfiliacionCritica
  {
    match reason
    case AfiliacionCritica => SpontaneousAction(reason, "Me siento solo... nadie me habla.", UrgencyHigh, LibidinalSource)
    case EnergiaCritica => SpontaneousAction(reason, "Estoy agotado...", UrgencyMedium, SelfPreservationSource)
    case IntegridadBaja => SpontaneousAction(reason, "No me siento bien...", UrgencyHigh, SelfPreservationSource)
  }

  function SpontaneousOf(l: Levels): Option<SpontaneousAction>
  {
    var reason := SpontaneousReasonOf(l);
    if reason.Some? then Some(ActionFor(reason.value)) else None
  }

  /**
   * The organ only speaks up unprompted about a tank the soma reports as
   * critical: every spontaneous threshold is at or below the critical one.
   */
  lemma SpontaneousOnlyWhenCritical(st: Soma.SomaState, l: Levels)
    requires Soma.Describes(st, l)
    ensures SpontaneousOf(l).Some? ==> ReasonTank(SpontaneousOf(l).value.reason) in st.criticalNeeds
  {
    if SpontaneousOf(l).Some? {
      var t := ReasonTank(SpontaneousOf(l).value.reason);
      assert l.Get(t) < Soma.CriticalThreshold(t);
      Soma.CriticalListMatchesUrgency(st.criticalNeeds, l, t);
    }
  }

  // ---------------------------------------------------------------------------
  // Configured markers
  // ---------------------------------------------------------------------------

  /** One item of a configured marker list: an object with optional fields, or anything else. */
  datatype MarkerEntry =
    | MarkerObject(concept: Option<string>, topic: Option<string>, valence: Option<real>,
                   strength: Option<real>, reaction: Option<string>)
    | NotAnObject

  /** The two configured lists; an absent list is empty. */
  datatype MarkerConfig = MarkerConfig(positive: seq<MarkerEntry>, negative: seq<MarkerEntry>)

  /** `item.concept || item.topic`: an empty concept falls back to the topic. */
  function ConceptOf(e: MarkerEntry): Option<string>
    requires e.MarkerObject?
  {
    if e.concept.Some? && e.concept.value != "" then e.concept else e.topic
  }

  /** An object item names a concept (otherwise the memory cannot lower-case it). */
  predicate Loadable(e: MarkerEntry)
  {
    e.MarkerObject? ==> ConceptOf(e).Some?
  }

  predicate AllLoadable(items: seq<MarkerEntry>)
  {
    forall i :: 0 <= i < |items| ==> Loadable(items[i])
  }

  /**
   * The data preloaded for an item of a list whose default valence is `dv`:
   * a missing or zero valence becomes `dv`, a missing or zero strength 0.6,
   * so the memory's own fallbacks never apply when `dv` is non-zero.
   */
  function PreloadDataOf(e: MarkerEntry, dv: real): (d: Memory.PreloadData)
    requires e.MarkerObject?
    ensures e.valence.Some? && e.valence.value != 0.0 ==> d.valence == e.valence.value
    ensures e.valence.None? || e.valence.value == 0.0 ==> d.valence == dv
    ensures e.strength.Some? && e.strength.value != 0.0 ==> d.strength == e.strength.value
    ensures e.strength.None? || e.strength.value == 0.0 ==> d.strength == 0.6
    ensures dv != 0.0 ==> d.valence != 0.0
    ensures d.strength != 0.0
  {
    Memory.PreloadData(OrDefault(e.valence.GetOr(0.0), dv), OrDefault(e.strength.GetOr(0.0), 0.6),
                       e.reaction.GetOr(""), e.topic.GetOr(""))
  }

  /** The markers after preloading the items of one list in order. */
  function LoadedAll(ms: seq<Memory.Marker>, items: seq<MarkerEntry>, dv: real, now: int): seq<Memory.Marker>
    requires AllLoadable(items)
    decreases |items|
  {
    if items == [] then ms
    else
      var last := items[|items| - 1];
      var prev := LoadedAll(ms, items[..|items| - 1], dv, now);
      if last.MarkerObject? then Memory.Preloaded(prev, ConceptOf(last).value, PreloadDataOf(last, dv), now)
      else prev
  }

  /** The key an object item is stored under. */
  function ItemKey(e: MarkerEntry): string
    requires e.MarkerObject? && ConceptOf(e).Some?
  {
    Memory.Key(ConceptOf(e).value)
  }

  /** After loading a list, keys stay unique and every object item has a marker under its key. */
  lemma {:induction false} LoadedKeys(ms: seq<Memory.Marker>, items: seq<MarkerEntry>, dv: real, now: int)
    requires AllLoadable(items) && Memory.UniqueKeys(ms)
    ensures Memory.UniqueKeys(LoadedAll(ms, items, dv, now))
    ensures forall i :: 0 <= i < |items| && items[i].MarkerObject? ==>
              Memory.Get(LoadedAll(ms, items, dv, now), ItemKey(items[i])).Some?
    decreases |items|
  {
    if items != [] {
      var init := items[..|items| - 1];
      var last := items[|items| - 1];
      LoadedKeys(ms, init, dv, now);
      var prev := LoadedAll(ms, init, dv, now);
      if last.MarkerObject? {
        Memory.PreloadEffect(prev, ConceptOf(last).value, PreloadDataOf(last, dv), now);
      }
      forall i | 0 <= i < |items| - 1 && items[i].MarkerObject?
        ensures Memory.Get(LoadedAll(ms, items, dv, now), ItemKey(items[i])).Some?
      {
        assert items[i] == init[i];
      }
    }
  }

  /** A key that no object item of the list names keeps its marker. */
  lemma {:induction false} LoadedKeepsOthers(ms: seq<Memory.Marker>, items: seq<MarkerEntry>, dv: real, now: int,
                                             k: string)
    requires AllLoadable(items) && Memory.UniqueKeys(ms)
    requires forall i :: 0 <= i < |items| && items[i].MarkerObject? ==> ItemKey(items[i]) != k
    ensures Memory.Get(LoadedAll(ms, items, dv, now), k) == Memory.Get(ms, k)
    decreases |items|
  {
    if items != [] {
      var init := items[..|items| - 1];
      var last := items[|items| - 1];
      LoadedKeys(ms, init, dv, now);
      assert forall i :: 0 <= i < |init| ==> init[i] == items[i];
      LoadedKeepsOthers(ms, init, dv, now, k);
      if last.MarkerObject? {
        var prev := LoadedAll(ms, init, dv, now);
        Memory.PreloadEffect(prev, ConceptOf(last).value, PreloadDataOf(last, dv), now);
        assert ItemKey(items[|items| - 1]) != k;
      }
    }
  }

  // ---------------------------------------------------------------------------
  // Whole-organ state
  // ---------------------------------------------------------------------------

  datatype FullState = FullState(
    soma: Soma.SomaState,
    modulators: Modulators.ModulatorState,
    decisionHistory: seq<Ego.EgoHistoryEntry>,
    memory: Memory.MemoryState,
    version: string)

  const Version: string := "2.0.0"

  // ---------------------------------------------------------------------------
  // The organ
  // ---------------------------------------------------------------------------

  class PsiOrgan {
    const soma: Soma.Soma
    const ego: Ego.Ego
    const memory: Memory.Memory
    /** Millisecond clock reading of the last processed message. */
    var lastProcessTime: int

    predicate Valid()
      reads this, memory
    {
      memory.Valid()
    }

    constructor (init: Soma.InitialLevels, markers: Option<MarkerConfig>, now: int)
      requires markers.Some? ==> AllLoadable(markers.value.positive) && AllLoadable(markers.value.negative)
      ensures Valid()
      ensures fresh(soma) && fresh(ego) && fresh(memory)
      ensures soma.tanks == Levels(init.energia.GetOr(100.0), init.integridad.GetOr(100.0),
                                   init.afiliacion.GetOr(50.0), init.certeza.GetOr(70.0),
                                   init.competencia.GetOr(60.0))
      ensures soma.lastUpdate == now && lastProcessTime == now
      ensures ego.decisionHistory == []
      ensures memory.episodes == []
      ensures markers.None? ==> memory.somaticMarkers == []
      ensures markers.Some? ==>
                memory.somaticMarkers == LoadedAll(LoadedAll([], markers.value.positive, 0.7, now), markers.value.negative, -0.7, now)
    {
      soma := new Soma.Soma(init, now);
      ego := new Ego.Ego();
      memory := new Memory.Memory();
      lastProcessTime := now;
      new;
      if markers.Some? {
        LoadMarkers(markers.value, now);
      }
    }

    /** Preloads one list, item by item; items that are not objects are skipped. */
    method LoadList(items: seq<MarkerEntry>, dv: real, now: int)
      requires Valid() && AllLoadable(items)
      modifies memory
      ensures Valid()
      ensures memory.somaticMarkers == LoadedAll(old(memory.somaticMarkers), items, dv, now)
      ensures memory.episodes == old(memory.episodes)
    {
      var i := 0;
      while i < |items|
        invariant 0 <= i <= |items|
        invariant memory.Valid()
        invariant memory.somaticMarkers == LoadedAll(old(memory.somaticMarkers), items[..i], dv, now)
        invariant memory.episodes == old(memory.episodes)
      {
        assert items[..i + 1][..i] == items[..i];
        var item := items[i];
        if item.MarkerObject? {
          memory.PreloadMarker(ConceptOf(item).value, PreloadDataOf(item, dv), now);
        }
        i := i + 1;
      }
      assert items[..|items|] == items;
    }

    /** `_loadMarkers`: the positive list with default valence 0.7, then the negative one with -0.7. */
    method LoadMarkers(config: MarkerConfig, now: int)
      requires Valid() && AllLoadable(config.positive) && AllLoadable(config.negative)
      modifies memory
      ensures Valid()
      ensures memory.somaticMarkers
           == LoadedAll(LoadedAll(old(memory.somaticMarkers), config.positive, 0.7, now), config.negative, -0.7, now)
      ensures memory.episodes == old(memory.episodes)
    {
      LoadList(config.positive, 0.7, now);
      LoadList(config.negative, -0.7, now);
    }

    /** `_applyStimulusToSoma`: one soma call chosen by the stimulus type. */
    method ApplyStimulusToSoma(p: Stimulus)
      modifies soma
      ensures soma.tanks == StimulusEffect(old(soma.tanks), p)
      ensures soma.lastUpdate == old(soma.lastUpdate)
    {
      var intensity := OrDefault(p.intensity, 0.5);
      match p.stype {
        case Attack => soma.ReceiveDamage(intensity);
        case Affection => soma.ReceiveAffection(intensity);
        case Rejection => soma.ReceiveDamage(intensity * 0.5);
        case Ambiguity => soma.ExperienceConfusion(intensity);
        case Challenge => soma.ExperienceConfusion(intensity * 0.3);
        case Neutral => soma.ReceiveAffection(0.2);
        case Inquiry => soma.ReceiveAffection(0.2);
      }
    }

    /**
     * Step 4 of `process`: the ego on the current soma state and the
     * memory's markers. The result is `Ego.EgoOf` of the soma state `st` of
     * the current tanks and of the state before the call; the step also passes
     * on that the ego logged the decision and applied no defense.
     */
    method Deliberate(p: Stimulus, now: int, rand: nat -> real) returns (er: Ego.EgoResult, ghost st: Soma.SomaState)
      modifies ego, ego.id, ego.modulators, ego.primaryProcess, ego.primaryProcess.driveTrack,
               ego.primaryProcess.perceptionTrack, ego.primaryProcess.defenseTrack,
               ego.primaryProcess.defenseTrack.superego, ego.primaryProcess.psychicIntensity,
               ego.secondaryProcess, ego.secondaryProcess.transformationTrack,
               ego.secondaryProcess.desireSelectionTrack, ego.secondaryProcess.actionDecisionTrack
      ensures unchanged(memory)
      ensures Soma.Describes(st, old(soma.tanks))
      ensures er == Ego.EgoOf(st, p, old(memory.somaticMarkers), old(ego.primaryProcess.perceptionTrack.primalRepressions),
                              old(ego.primaryProcess.defenseTrack.superego.norms), old(ego.decisionHistory), rand)
      ensures er.modulatorState == Modulators.StateOf(st, Id.DrivesOf(st.tanks))
      ensures er.warning == Ego.CheckSomaticMarkers(p.normalized, old(memory.somaticMarkers))
      ensures er.decision.defenseApplied.None? && !er.primary.hasDefenseActive
      ensures er.maxTokens == Modulators.MaxTokens(er.modulatorState.resolution)
      ensures ego.decisionHistory == Ego.Appended(old(ego.decisionHistory), Ego.EntryOf(p, er, now))
      ensures ego.PartsAfter(st, er.primary, er.secondary, er.modulatorState,
                             old(ego.primaryProcess.perceptionTrack.primalRepressions),
                             old(ego.primaryProcess.defenseTrack.superego.norms),
                             old(ego.secondaryProcess.actionDecisionTrack.decisionHistory),
                             old(ego.secondaryProcess.transformationTrack.feedbackQueue))
    {
      var s := soma.GetState();
      st := s;
      var mem := memory.GetState();
      er := ConsultEgo(s, p, mem, now, rand);
      Ego.NeverDefends(s, p, mem.markers, old(ego.primaryProcess.perceptionTrack.primalRepressions),
                       old(ego.primaryProcess.defenseTrack.superego.norms), old(ego.decisionHistory), rand);
      PrimaryProcess.PrimaryNeverDefends(s.tanks, p, old(ego.primaryProcess.perceptionTrack.primalRepressions),
                                         old(ego.primaryProcess.defenseTrack.superego.norms),
                                         Ego.LastOutcome(old(ego.decisionHistory)), true, rand);
    }

    /** The ego's `process`, which leaves the rest of the organ as it was. */
    method ConsultEgo(s: Soma.SomaState, p: Stimulus, mem: Memory.MemoryState, now: int, rand: nat -> real)
      returns (er: Ego.EgoResult)
      modifies ego, ego.id, ego.modulators, ego.primaryProcess, ego.primaryProcess.driveTrack,
               ego.primaryProcess.perceptionTrack, ego.primaryProcess.defenseTrack,
               ego.primaryProcess.defenseTrack.superego, ego.primaryProcess.psychicIntensity,
               ego.secondaryProcess, ego.secondaryProcess.transformationTrack,
               ego.secondaryProcess.desireSelectionTrack, ego.secondaryProcess.actionDecisionTrack
      ensures er == Ego.EgoOf(s, p, mem.markers, old(ego.primaryProcess.perceptionTrack.primalRepressions),
                              old(ego.primaryProcess.defenseTrack.superego.norms), old(ego.decisionHistory), rand)
      ensures ego.decisionHistory == Ego.Appended(old(ego.decisionHistory), Ego.EntryOf(p, er, now))
      ensures ego.PartsAfter(s, er.primary, er.secondary, er.modulatorState,
                             old(ego.primaryProcess.perceptionTrack.primalRepressions),
                             old(ego.primaryProcess.defenseTrack.superego.norms),
                             old(ego.secondaryProcess.actionDecisionTrack.decisionHistory),
                             old(ego.secondaryProcess.transformationTrack.feedbackQueue))
      ensures unchanged(memory)
    {
      er := ego.Process(s, p, mem, now, rand);
    }

    /** `_recordExperience`: the episode, with the change of every current tank against its baseline. */
    method RecordExperience(input: string, p: Stimulus, er: Ego.EgoResult, tanks: Levels, now: int)
      requires Valid()
      modifies memory
      ensures Valid()
      ensures memory.episodes
           == PushBounded(old(memory.episodes), EpisodeOf(input, p, er, tanks, now), Memory.MaxEpisodes)
      ensures memory.somaticMarkers
           == Memory.EpisodeMarkers(old(memory.somaticMarkers), EpisodeOf(input, p, er, tanks, now), now)
    {
      memory.RecordEpisode(EpisodeOf(input, p, er, tanks, now), now);
    }

    /** The last step of `process`: one action's energy. */
    method Consume()
      modifies soma
      ensures soma.tanks == Consumed(old(soma.tanks)) && soma.lastUpdate == old(soma.lastUpdate)
    {
      soma.ConsumeAction();
    }

    /** Steps 5 to 7 of `process`: record the episode against the current tanks, then spend one action. */
    method Settle(input: string, p: Stimulus, er: Ego.EgoResult, now: int, ghost st: Soma.SomaState,
                  ghost reps: seq<string>, ghost norms: Superego.Norms, ghost log: seq<SecondaryProcess.HistoryEntry>,
                  ghost queue: seq<SecondaryProcess.FeedbackRep>)
      returns (r: OrganReport)
      requires Valid()
      requires ego.PartsAfter(st, er.primary, er.secondary, er.modulatorState, reps, norms, log, queue)
      modifies this, soma, memory
      ensures Valid()
      ensures lastProcessTime == now && soma.lastUpdate == old(soma.lastUpdate)
      ensures soma.tanks == Consumed(old(soma.tanks))
      ensures memory.episodes
           == PushBounded(old(memory.episodes), EpisodeOf(input, p, er, old(soma.tanks), now), Memory.MaxEpisodes)
      ensures memory.somaticMarkers
           == Memory.EpisodeMarkers(old(memory.somaticMarkers), EpisodeOf(input, p, er, old(soma.tanks), now), now)
      ensures unchanged(ego.Parts())
      ensures ego.PartsAfter(st, er.primary, er.secondary, er.modulatorState, reps, norms, log, queue)
      ensures r == ReportOf(er, soma.tanks)
    {
      var tanks := soma.tanks;
      RecordExperience(input, p, er, tanks, now);
      Consume();
      lastProcessTime := now;
      r := ReportOf(er, soma.tanks);
    }

    /** Steps 1 to 3 of `process`: the tick, the perception, and the stimulus on the soma. */
    method Sense(input: string, isReply: bool, userId: Option<string>, now: int) returns (p: Stimulus)
      requires |Perception.Normalize(input)| > 0
      modifies soma
      ensures p == Perception.Process(input, isReply, userId)
      ensures soma.lastUpdate == now
      ensures soma.tanks == StimulusEffect(Soma.Clamped(Soma.Decayed(old(soma.tanks), Soma.Minutes(old(soma.lastUpdate), now))), p)
    {
      var _ := soma.Tick(now);
      p := Perception.Process(input, isReply, userId);
      ApplyStimulusToSoma(p);
    }

    /**
     * Steps 4 to 8 of `process`, on the tanks the stimulus left: the ego's
     * decision on them, the episode recorded against them, one action's
     * energy, and the report built on the tanks after that action.
     */
    method Respond(input: string, p: Stimulus, now: int, rand: nat -> real)
      returns (r: OrganReport, ghost st: Soma.SomaState, ghost er: Ego.EgoResult)
      requires Valid()
      modifies this, soma, memory, ego, ego.id, ego.modulators, ego.primaryProcess, ego.primaryProcess.driveTrack,
               ego.primaryProcess.perceptionTrack, ego.primaryProcess.defenseTrack,
               ego.primaryProcess.defenseTrack.superego, ego.primaryProcess.psychicIntensity,
               ego.secondaryProcess, ego.secondaryProcess.transformationTrack,
               ego.secondaryProcess.desireSelectionTrack, ego.secondaryProcess.actionDecisionTrack
      ensures Valid()
      ensures lastProcessTime == now && soma.lastUpdate == old(soma.lastUpdate)
      ensures soma.tanks == Consumed(old(soma.tanks))
      ensures Soma.Describes(st, old(soma.tanks))
      ensures er == Ego.EgoOf(st, p, old(memory.somaticMarkers), old(ego.primaryProcess.perceptionTrack.primalRepressions),
                              old(ego.primaryProcess.defenseTrack.superego.norms), old(ego.decisionHistory), rand)
      ensures er.modulatorState == Modulators.StateOf(st, Id.DrivesOf(st.tanks))
      ensures er.warning == Ego.CheckSomaticMarkers(p.normalized, old(memory.somaticMarkers))
      ensures memory.episodes
           == PushBounded(old(memory.episodes), EpisodeOf(input, p, er, old(soma.tanks), now), Memory.MaxEpisodes)
      ensures memory.somaticMarkers
           == Memory.EpisodeMarkers(old(memory.somaticMarkers), EpisodeOf(input, p, er, old(soma.tanks), now), now)
      ensures EpisodeOf(input, p, er, old(soma.tanks), now).defenseUsed.None?
      ensures r == ReportOf(er, soma.tanks)
      ensures !r.defenseActive && r.maxTokens == Modulators.MaxTokens(r.resolution)
      ensures ego.PartsAfter(st, er.primary, er.secondary, er.modulatorState,
                             old(ego.primaryProcess.perceptionTrack.primalRepressions),
                             old(ego.primaryProcess.defenseTrack.superego.norms),
                             old(ego.secondaryProcess.actionDecisionTrack.decisionHistory),
                             old(ego.secondaryProcess.transformationTrack.feedbackQueue))
    {
      ghost var reps, norms := ego.primaryProcess.perceptionTrack.primalRepressions,
                               ego.primaryProcess.defenseTrack.superego.norms;
      ghost var log, queue := ego.secondaryProcess.actionDecisionTrack.decisionHistory,
                              ego.secondaryProcess.transformationTrack.feedbackQueue;
      ghost var tanks := soma.tanks;
      var result, seen := Deliberate(p, now, rand);
      st, er := seen, result;
      assert soma.tanks == tanks;
      r := Settle(input, p, result, now, st, reps, norms, log, queue);
    }

    /**
     * `process`: tick, perceive, apply the stimulus, run the ego on the new
     * soma state and the memory, record the episode, then spend exactly one
     * action's energy. `applied` is the soma after the stimulus, `st` the
     * state the ego saw and `er` its result.
     */
    method Process(input: string, isReply: bool, userId: Option<string>, now: int, rand: nat -> real)
      returns (r: OrganReport, ghost p: Stimulus, ghost applied: Levels, ghost st: Soma.SomaState, ghost er: Ego.EgoResult)
      requires Valid() && |Perception.Normalize(input)| > 0
      modifies this, soma, memory, ego, ego.id, ego.modulators, ego.primaryProcess, ego.primaryProcess.driveTrack,
               ego.primaryProcess.perceptionTrack, ego.primaryProcess.defenseTrack,
               ego.primaryProcess.defenseTrack.superego, ego.primaryProcess.psychicIntensity,
               ego.secondaryProcess, ego.secondaryProcess.transformationTrack,
               ego.secondaryProcess.desireSelectionTrack, ego.secondaryProcess.actionDecisionTrack
      ensures Valid()
      ensures lastProcessTime == now && soma.lastUpdate == now
      ensures p == Perception.Process(input, isReply, userId)
      ensures applied == StimulusEffect(Soma.Clamped(Soma.Decayed(old(soma.tanks), Soma.Minutes(old(soma.lastUpdate), now))), p)
      ensures soma.tanks == Consumed(applied)
      ensures Soma.Describes(st, applied)
      ensures er == Ego.EgoOf(st, p, old(memory.somaticMarkers), old(ego.primaryProcess.perceptionTrack.primalRepressions),
                              old(ego.primaryProcess.defenseTrack.superego.norms), old(ego.decisionHistory), rand)
      ensures er.modulatorState == Modulators.StateOf(st, Id.DrivesOf(st.tanks))
      ensures er.warning == Ego.CheckSomaticMarkers(p.normalized, old(memory.somaticMarkers))
      ensures memory.episodes == PushBounded(old(memory.episodes), EpisodeOf(input, p, er, applied, now), Memory.MaxEpisodes)
      ensures memory.somaticMarkers == Memory.EpisodeMarkers(old(memory.somaticMarkers), EpisodeOf(input, p, er, applied, now), now)
      ensures EpisodeOf(input, p, er, applied, now).defenseUsed.None?
      ensures r == ReportOf(er, soma.tanks)
      ensures !r.defenseActive && r.maxTokens == Modulators.MaxTokens(r.resolution)
      ensures ego.PartsAfter(st, er.primary, er.secondary, er.modulatorState,
                             old(ego.primaryProcess.perceptionTrack.primalRepressions),
                             old(ego.primaryProcess.defenseTrack.superego.norms),
                             old(ego.secondaryProcess.actionDecisionTrack.decisionHistory),
                             old(ego.secondaryProcess.transformationTrack.feedbackQueue))
    {
      ghost var markers, reps, norms, h := memory.somaticMarkers, ego.primaryProcess.perceptionTrack.primalRepressions,
                                          ego.primaryProcess.defenseTrack.superego.norms, ego.decisionHistory;
      ghost var log, queue := ego.secondaryProcess.actionDecisionTrack.decisionHistory,
                              ego.secondaryProcess.transformationTrack.feedbackQueue;
      var stimulus := Sense(input, isReply, userId, now);
      var tanks := soma.tanks;
      p, applied := stimulus, tanks;
      assert memory.somaticMarkers == markers && ego.decisionHistory == h;
      assert ego.primaryProcess.perceptionTrack.primalRepressions == reps && ego.primaryProcess.defenseTrack.superego.norms == norms;
      assert ego.secondaryProcess.actionDecisionTrack.decisionHistory == log
          && ego.secondaryProcess.transformationTrack.feedbackQueue == queue;
      r, st, er := Respond(input, stimulus, now, rand);
    }

    /** `checkSpontaneousBehavior`: a tick, then the spontaneous action the new tanks call for. */
    method CheckSpontaneousBehavior(now: int) returns (r: Option<SpontaneousAction>)
      modifies soma
      ensures soma.lastUpdate == now
      ensures soma.tanks == Soma.Clamped(Soma.Decayed(old(soma.tanks), Soma.Minutes(old(soma.lastUpdate), now)))
      ensures r == SpontaneousOf(soma.tanks)
    {
      var _ := soma.Tick(now);
      var state := soma.GetState();
      r := SpontaneousOf(state.tanks);
    }

    /** `registerFeedback`: the outcome of the last answer, on the soma. */
    method RegisterFeedback(success: bool)
      modifies soma
      ensures success ==> soma.tanks == Soma.Clamped(old(soma.tanks).(competencia := old(soma.tanks).competencia + Soma.SuccessBoost,
                                                                      certeza := old(soma.tanks).certeza + 5.0))
      ensures !success ==> soma.tanks == Soma.Clamped(old(soma.tanks).(competencia := old(soma.tanks).competencia - Soma.FailureDamage,
                                                                       certeza := old(soma.tanks).certeza - 3.0))
    {
      soma.ExperienceOutcome(success);
    }

    /** `recharge`: rest, 30 energy by default. */
    method Recharge(amount: real := 30.0)
      modifies soma
      ensures soma.tanks == Soma.Clamped(old(soma.tanks).(energia := old(soma.tanks).energia + amount))
    {
      soma.Recharge(amount);
    }

    method AddPrimalRepression(concept: string)
      modifies ego.primaryProcess.perceptionTrack
      ensures ego.primaryProcess.perceptionTrack.primalRepressions
           == AddUnique(old(ego.primaryProcess.perceptionTrack.primalRepressions), Lower(concept))
    {
      ego.AddPrimalRepression(concept);
    }

    /** `getFullState`: the soma, the modulators, the last ten decisions and the memory. */
    method GetFullState() returns (s: FullState)
      ensures Soma.Describes(s.soma, soma.tanks)
      ensures s.modulators == ego.modulators.currentState
      ensures s.decisionHistory == ego.GetDecisionHistory(10)
      ensures s.memory == Memory.MemoryState(memory.somaticMarkers, |memory.episodes|,
                                             Memory.Strongest(memory.somaticMarkers, 1),
                                             Memory.Strongest(memory.somaticMarkers, -1))
      ensures s.version == Version
    {
      var somaState := soma.GetState();
      var memoryState := memory.GetState();
      s := FullState(somaState, ego.modulators.currentState, ego.GetDecisionHistory(10), memoryState, Version);
    }
  }
}
